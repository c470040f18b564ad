/** The admin queue's ring: a guest writes commands of one or more strides, and
    the device runs or refuses each of them. */
module AdminRing {
  import opened Arith
  import opened Wire

  const STRIDE := 64
  const HDR := 4
  const MAX_STRIDES := 4

  /** A command's length, in the stride it starts in: the bytes after the
      header. */
  function BodyLen(s: seq<byte>): (n: nat) {
    if |s| == STRIDE then s[2] as nat + 256 * s[3] as nat else 0
  }

  /** The strides a command takes, as its guest counts them. */
  function Strides(s: seq<byte>): (n: nat)
    ensures n >= 1
  {
    Quot(HDR + BodyLen(s) + STRIDE - 1, STRIDE)
  }

  /** n strides from a slot on, wrapping at the ring's end. */
  function Wrapped(ring: seq<seq<byte>>, slot: nat, n: nat): (b: seq<byte>)
    requires ring != []
  {
    if n == 0 then [] else Wrapped(ring, slot, n - 1) + ring[Rem(slot + n - 1, |ring|)]
  }

  /** What the device did with a command, and how many strides had been
      produced from its first on. */
  datatype Event =
    | Ran(slot: nat, strides: nat, avail: nat, wqe: seq<byte>)
    | Refused(slot: nat, strides: nat, avail: nat)

  /** Which of a poll's reads of guest memory succeed, by the number of strides
      still to be processed: the read of a command's first stride, and of the
      rest of it. */
  datatype Fetch = Fetch(first: nat -> bool, tail: nat -> bool)

  /** What is done with the command that starts at stride c, of p produced, if
      it can be read. Strides are counted from the first ever produced. */
  function NextEvent(ring: seq<seq<byte>>, c: nat, p: nat, fetch: Fetch): (e: Option<Event>)
    requires ring != [] && c < p
    ensures e.Some? ==> 1 <= e.value.strides <= p - c
  {
    var slot := Rem(c, |ring|);
    var n := Strides(ring[slot]);
    if !fetch.first(p - c) then None
    else if n > p - c then Some(Refused(slot, p - c, p - c))
    else if n > MAX_STRIDES then Some(Refused(slot, n, p - c))
    else if !fetch.tail(p - c) then None
    else Some(Ran(slot, n, p - c, Wrapped(ring, slot, n)))
  }

  /** A poll's loop: what it does with the strides from c to p. */
  function PollFrom(ring: seq<seq<byte>>, c: nat, p: nat, fetch: Fetch): (e: seq<Event>)
    requires ring != []
    decreases p - c
  {
    if c >= p || NextEvent(ring, c, p, fetch).None? then []
    else
      var e := NextEvent(ring, c, p, fetch).value;
      [e] + PollFrom(ring, c + e.strides, p, fetch)
  }

  /** The stride some events end at, if they begin at c. */
  function EndOf(e: seq<Event>, c: nat): (n: nat) {
    if e == [] then c else EndOf(e[1..], c + e[0].strides)
  }

  // ---------------------------------------------------------------------
  // The queue, in place
  // ---------------------------------------------------------------------

  lemma {:induction false} WrappedSplit(ring: seq<seq<byte>>, slot: nat, n: nat, k: nat)
    requires ring != []
    ensures Wrapped(ring, slot, n + k) == Wrapped(ring, slot, n) + Wrapped(ring, slot + n, k)
  {
    if k > 0 {
      WrappedSplit(ring, slot, n, k - 1);
      assert slot + n + k - 1 == slot + (n + k) - 1;
    }
  }

  lemma {:induction false} RemAdd(a: nat, n: nat, d: nat)
    requires d > 0
    ensures Rem(Rem(a, d) + n, d) == Rem(a + n, d)
  {
    QuotAdd(a, d, n);
  }

  lemma {:induction false} WrappedRem(ring: seq<seq<byte>>, slot: nat, n: nat)
    requires ring != []
    ensures Wrapped(ring, slot, n) == Wrapped(ring, Rem(slot, |ring|), n)
  {
    if n > 0 {
      var k := n - 1;
      WrappedRem(ring, slot, k);
      RemAdd(slot, k, |ring|);
      assert slot + n - 1 == slot + k && Rem(slot, |ring|) + n - 1 == Rem(slot, |ring|) + k;
    }
  }

  /** Strides that follow one another in the ring, all before its end. */
  function Piece(ring: seq<seq<byte>>, slot: nat, n: nat): (b: seq<byte>)
    requires slot + n <= |ring|
  {
    if n == 0 then [] else Piece(ring, slot, n - 1) + ring[slot + n - 1]
  }

  lemma {:induction false} PieceWrapped(ring: seq<seq<byte>>, slot: nat, n: nat)
    requires ring != [] && slot + n <= |ring|
    ensures Piece(ring, slot, n) == Wrapped(ring, slot, n)
  {
    if n > 0 {
      PieceWrapped(ring, slot, n - 1);
    }
  }

  class Queue {
    const ring: array<seq<byte>>
    var cons: nat
    var prod: nat
    ghost var log: seq<Event>
    ghost var gone: nat
    ghost var made: nat

    constructor (r: array<seq<byte>>)
      requires r.Length > 0
      ensures Valid() && ring == r && log == [] && gone == made == 0
    {
      ring := r;
      cons, prod, log, gone, made := 0, 0, [], 0, 0;
    }

    /** The two indices are the counts of strides gone past and produced, modulo
        the ring's depth. */
    ghost predicate Valid()
      reads this
    {
      && ring.Length > 0 && gone <= made < gone + ring.Length
      && cons == Rem(gone, ring.Length) && prod == Rem(made, ring.Length)
    }

    /** ionic_adminq_update_prod(): whatever the guest's index, it stands for a
        count less than a lap ahead, and for its own count if that is. */
    method UpdateProd(pIndex: nat)
      requires Valid()
      modifies this`prod, this`made
      ensures Valid() && prod == Rem(pIndex, ring.Length)
      ensures made == gone + Pending(cons, prod, ring.Length)
      ensures forall n :: gone <= n < gone + ring.Length && Rem(n, ring.Length) == prod ==> made == n
    {
      QuotRem(pIndex, ring.Length);
      prod := pIndex % ring.Length;
      made := gone + Pending(cons, prod, ring.Length);
      ProducedCount(gone, prod, ring.Length);
      forall n | gone <= n < gone + ring.Length && Rem(n, ring.Length) == prod ensures made == n {
        PendingIs(gone, n, ring.Length);
      }
    }

    /** read_wqe_tail(), after the first stride: as far as the ring's end, and
        what is left from its start. */
    method ReadTail(slot: nat, strides: nat) returns (buf: seq<byte>)
      requires slot < ring.Length && 1 <= strides <= MAX_STRIDES
      ensures buf == Wrapped(ring[..], slot, strides)
    {
      ghost var s := ring[..];
      QuotRem(slot + 1, ring.Length);
      var next: nat, left: nat := (slot + 1) % ring.Length, strides - 1;
      buf := ring[slot];
      ghost var at: nat := slot + 1;
      FirstStride(s, slot, left);
      while left > 0
        invariant next < ring.Length && (left > 0 ==> next == Rem(at, ring.Length))
        invariant buf + Wrapped(s, at, left) == Wrapped(s, slot, strides)
        decreases left
      {
        var run := if ring.Length - next > left then left else ring.Length - next;
        var piece := ReadRun(next, run);
        NextRun(s, at, next, run, left, buf);
        buf := buf + piece;
        left := left - run;
        at := at + run;
        next := 0;
      }
    }

    /** One read of the ring's memory. */
    method ReadRun(slot: nat, n: nat) returns (b: seq<byte>)
      requires ring.Length > 0 && slot + n <= ring.Length
      ensures b == Wrapped(ring[..], slot, n)
    {
      b := [];
      for i := 0 to n
        invariant b == Piece(ring[..], slot, i)
      {
        b := b + ring[slot + i];
      }
      PieceWrapped(ring[..], slot, n);
    }

    /** One turn of the poll: the command at cons is run or refused, or can't
        be read. */
    method Turn(avail: nat, fetch: Fetch) returns (e: Option<Event>)
      requires Valid() && avail == made - gone > 0
      ensures e == NextEvent(ring[..], gone, made, fetch)
    {
      if !fetch.first(avail) {
        return None;
      }
      var n := Strides(ring[cons]);
      if n > MAX_STRIDES || n > avail {
        return Some(Refused(cons, if n > avail then avail else n, avail));
      }
      if !fetch.tail(avail) {
        return None;
      }
      var wqe := ReadTail(cons, n);
      return Some(Ran(cons, n, avail, wqe));
    }

    method GoPast(e: Event)
      requires Valid() && 1 <= e.strides <= made - gone
      modifies this`cons, this`log, this`gone
      ensures Valid() && log == old(log) + [e] && gone == old(gone) + e.strides
    {
      QuotRem(cons + e.strides, ring.Length);
      RemAdd(gone, e.strides, ring.Length);
      cons := (cons + e.strides) % ring.Length;
      log := log + [e];
      gone := gone + e.strides;
    }

    /** A turn, and going past the command it was about: 0 if there was none.
        rest is what the poll has left to do. */
    method PollOne(avail: nat, fetch: Fetch, ghost s: seq<seq<byte>>, ghost rest: seq<Event>)
      returns (n: nat, ghost rest': seq<Event>)
      requires Valid() && avail == made - gone > 0 && s == ring[..] && rest == PollFrom(s, gone, made, fetch)
      modifies this`cons, this`log, this`gone
      ensures Valid() && gone == old(gone) + n && n <= avail
      ensures rest' == PollFrom(s, gone, made, fetch)
      ensures log + rest' == old(log) + rest && EndOf(rest', gone) == EndOf(rest, old(gone))
      ensures n == 0 ==> rest' == []
    {
      var e := Turn(avail, fetch);
      if e.None? {
        return 0, rest;
      }
      n := e.value.strides;
      ghost var c := gone + n;
      rest' := PollFrom(s, c, made, fetch);
      PollStep(s, gone, made, fetch, e.value, c, rest, rest');
      Moved(log, e.value, rest', rest);
      GoPast(e.value);
      assert gone == c;
    }

    /** ionic_adminq_poll(), for one queue. */
    method Poll(fetch: Fetch)
      requires Valid()
      modifies this`cons, this`log, this`gone
      ensures Valid()
      ensures var e := PollFrom(ring[..], old(gone), made, fetch);
        log == old(log) + e && gone == EndOf(e, old(gone))
    {
      PendingIs(gone, made, ring.Length);
      if prod == cons {
        NonePending(cons, ring.Length);
        assert log == log + [];
        return;
      }
      var pending := (prod + ring.Length - cons) % ring.Length;
      QuotRem(prod + ring.Length - cons, ring.Length);
      var processed := 0;
      ghost var s := ring[..];
      ghost var all := PollFrom(s, gone, made, fetch);
      ghost var rest := all;
      while processed < pending && processed < ring.Length
        invariant Valid() && 0 <= processed && pending - processed == made - gone
        invariant s == ring[..] && rest == PollFrom(s, gone, made, fetch)
        invariant log + rest == old(log) + all && EndOf(rest, gone) == EndOf(all, old(gone))
        decreases pending - processed
      {
        var n;
        n, rest := PollOne(pending - processed, fetch, s, rest);
        if n == 0 {
          break;
        }
        processed := processed + n;
      }
      assert rest == [];
      assert log + [] == log;
    }
  }

  lemma {:induction false} Moved(log: seq<Event>, e: Event, rest: seq<Event>, all: seq<Event>)
    requires all == [e] + rest
    ensures (log + [e]) + rest == log + all
  {
  }

  /** What a poll does next, and what is left to it then. */
  lemma {:induction false} PollStep(ring: seq<seq<byte>>, c: nat, p: nat, fetch: Fetch, e: Event, c': nat,
                                    all: seq<Event>, rest: seq<Event>)
    requires ring != [] && c < p && NextEvent(ring, c, p, fetch) == Some(e) && c' == c + e.strides
    requires all == PollFrom(ring, c, p, fetch) && rest == PollFrom(ring, c', p, fetch)
    ensures all == [e] + rest && EndOf(all, c) == EndOf(rest, c')
  {
    assert ([e] + rest)[1..] == rest;
  }

  lemma {:induction false} FirstStride(s: seq<seq<byte>>, slot: nat, left: nat)
    requires slot < |s|
    ensures s[slot] + Wrapped(s, slot + 1, left) == Wrapped(s, slot, left + 1)
  {
    WrappedSplit(s, slot, 1, left);
    assert Wrapped(s, slot, 0) == [];
    assert Wrapped(s, slot, 1) == s[slot];
  }

  /** A read of run strides, of left still to be read, and where that ends. */
  lemma {:induction false} NextRun(s: seq<seq<byte>>, at: nat, next: nat, run: nat, left: nat, buf: seq<byte>)
    requires s != [] && next == Rem(at, |s|) && run <= left && (run == left || next + run == |s|)
    ensures (buf + Wrapped(s, next, run)) + Wrapped(s, at + run, left - run) == buf + Wrapped(s, at, left)
    ensures run < left ==> Rem(at + run, |s|) == 0
  {
    WrappedSplit(s, at, run, left - run);
    WrappedRem(s, at, run);
    if run < left {
      RemAdd(at, run, |s|);
      assert Rem(|s|, |s|) == Rem(0, |s|) == 0;
    }
    var x, y := Wrapped(s, at, run), Wrapped(s, at + run, left - run);
    assert buf + (x + y) == (buf + x) + y;
  }

  /** An index names a count less than a lap ahead. */
  lemma {:induction false} ProducedCount(c: nat, prod: nat, depth: nat)
    requires prod < depth
    ensures Rem(c + Pending(Rem(c, depth), prod, depth), depth) == prod
  {
    var cons := Rem(c, depth);
    var k := Pending(cons, prod, depth);
    RemAdd(c, k, depth);
    if prod >= cons {
      assert Rem(prod - cons + depth, depth) == prod - cons;
      assert k == prod - cons;
    } else {
      assert k == prod + depth - cons;
      assert Rem(prod + depth, depth) == prod;
    }
  }

  lemma {:induction false} NonePending(cons: nat, depth: nat)
    requires cons < depth
    ensures Pending(cons, cons, depth) == 0
  {
    assert cons + depth - cons == depth;
    assert Rem(depth, depth) == Rem(0, depth) == 0;
  }

  /** The strides between the two indices of a ring. */
  function Pending(cons: nat, prod: nat, depth: nat): (n: nat)
    requires cons < depth && prod < depth
    ensures n < depth
  {
    Rem(prod + depth - cons, depth)
  }

  // ---------------------------------------------------------------------
  // What polls do, told against everything the guest ever wrote
  // ---------------------------------------------------------------------

  /** Some strides of everything written, one after another. */
  function Concat(w: seq<seq<byte>>, from: nat, n: nat): (b: seq<byte>)
    requires from + n <= |w|
  {
    if n == 0 then [] else Concat(w, from, n - 1) + w[from + n - 1]
  }

  /** The ring holds the strides from c on that have been written and not yet
      gone past, each in its slot. */
  predicate Holds(ring: seq<seq<byte>>, w: seq<seq<byte>>, c: nat) {
    && ring != [] && c <= |w| < c + |ring|
    && forall p :: c <= p < |w| ==> ring[Rem(p, |ring|)] == w[p]
  }

  /** Events that account for the strides of w from c on, in order and each
      once: where each begins is where the one before it ended. bells are the
      counts the guest rang its doorbell at. */
  predicate Tiles(e: seq<Event>, w: seq<seq<byte>>, bells: seq<nat>, c: nat, depth: nat)
    requires depth > 0
  {
    e == [] || (Accounts(e[0], w, bells, c, depth) && Tiles(e[1..], w, bells, c + e[0].strides, depth))
  }

  /** What an event has to do with the strides from c on: a command that ran was
      all there, no longer than one may be, and was given the strides its guest
      wrote; one that was refused was too long, and was gone past, or went on
      past what had been produced, and was gone past as far as that. */
  predicate Accounts(e: Event, w: seq<seq<byte>>, bells: seq<nat>, c: nat, depth: nat)
    requires depth > 0
  {
    && 1 <= e.strides <= e.avail && c + e.strides <= |w| && e.slot == Rem(c, depth)
    && c + e.avail in bells
    && var n := Strides(w[c]);
       match e
       case Ran(_, strides, avail, wqe) => strides == n <= MAX_STRIDES && wqe == Concat(w, c, n)
       case Refused(_, strides, avail) =>
         if n > avail then strides == avail else n > MAX_STRIDES && strides == n
  }

  lemma {:induction false} WrappedIsWritten(ring: seq<seq<byte>>, w: seq<seq<byte>>, c: nat, n: nat)
    requires Holds(ring, w, c) && c + n <= |w|
    ensures Wrapped(ring, Rem(c, |ring|), n) == Concat(w, c, n)
  {
    if n > 0 {
      WrappedIsWritten(ring, w, c, n - 1);
      RemAdd(c, n - 1, |ring|);
      assert ring[Rem(c + n - 1, |ring|)] == w[c + n - 1];
      assert Rem(c, |ring|) + (n - 1) == Rem(c, |ring|) + n - 1;
    }
  }

  /** One command is given the strides its guest wrote. */
  lemma {:induction false} EventIsWritten(ring: seq<seq<byte>>, w: seq<seq<byte>>, bells: seq<nat>, c: nat,
                                          fetch: Fetch, next: Option<Event>)
    requires Holds(ring, w, c) && c < |w| && next == NextEvent(ring, c, |w|, fetch) && |w| in bells
    ensures next.Some? ==> Accounts(next.value, w, bells, c, |ring|)
    ensures next.None? ==> !fetch.first(|w| - c) || !fetch.tail(|w| - c)
  {
    assert ring[Rem(c, |ring|)] == w[c];
    if next.Some? {
      WrappedIsWritten(ring, w, c, next.value.strides);
    }
  }

  ghost predicate AllRead(fetch: Fetch) {
    forall n :: fetch.first(n) && fetch.tail(n)
  }

  lemma {:induction false} Prepend(e: Event, rest: seq<Event>, w: seq<seq<byte>>, bells: seq<nat>, c: nat, depth: nat)
    requires depth > 0 && Accounts(e, w, bells, c, depth) && Tiles(rest, w, bells, c + e.strides, depth)
    ensures Tiles([e] + rest, w, bells, c, depth) && EndOf([e] + rest, c) == EndOf(rest, c + e.strides)
  {
  }

  /** A poll's next event, if it can read the command, and what is left to it. */
  lemma {:induction false} PollHead(ring: seq<seq<byte>>, w: seq<seq<byte>>, bells: seq<nat>, c: nat, fetch: Fetch)
    returns (next: Option<Event>)
    requires Holds(ring, w, c) && c < |w| && |w| in bells
    ensures next.None? ==> PollFrom(ring, c, |w|, fetch) == [] && !AllRead(fetch)
    ensures next.Some? ==>
              && Accounts(next.value, w, bells, c, |ring|) && Holds(ring, w, c + next.value.strides)
              && PollFrom(ring, c, |w|, fetch) == [next.value] + PollFrom(ring, c + next.value.strides, |w|, fetch)
  {
    next := NextEvent(ring, c, |w|, fetch);
    EventIsWritten(ring, w, bells, c, fetch, next);
  }

  /** A poll accounts for the written strides in order, each once, and never
      goes past the last; it stops short only at a command it can't read. */
  lemma {:induction false} PollTiles(ring: seq<seq<byte>>, w: seq<seq<byte>>, bells: seq<nat>, c: nat, fetch: Fetch)
    requires Holds(ring, w, c) && (c < |w| ==> |w| in bells)
    ensures var e := PollFrom(ring, c, |w|, fetch);
      Tiles(e, w, bells, c, |ring|) && c <= EndOf(e, c) <= |w| && (AllRead(fetch) ==> EndOf(e, c) == |w|)
    decreases |w| - c
  {
    if c < |w| {
      var next := PollHead(ring, w, bells, c, fetch);
      if next.Some? {
        var c' := c + next.value.strides;
        PollTiles(ring, w, bells, c', fetch);
        Prepend(next.value, PollFrom(ring, c', |w|, fetch), w, bells, c, |ring|);
      }
    }
  }

  /** The indices the device keeps are the two counts, modulo the depth. */
  lemma {:induction false} PendingIs(c: nat, p: nat, depth: nat)
    requires depth > 0 && c <= p < c + depth
    ensures Pending(Rem(c, depth), Rem(p, depth), depth) == p - c
  {
    var cons, k := Rem(c, depth), p - c;
    RemAdd(c, k, depth);
    var s := cons + k;
    if s < depth {
      assert Rem(p, depth) == s;
      assert s + depth - cons == k + depth;
      assert Rem(k + depth, depth) == Rem(k, depth) == k;
    } else {
      assert Rem(p, depth) == s - depth;
      assert s - depth + depth - cons == k;
    }
  }

  lemma {:induction false} TilesAppend(a: seq<Event>, b: seq<Event>, w: seq<seq<byte>>, bells: seq<nat>, c: nat,
                                       depth: nat)
    requires depth > 0 && Tiles(a, w, bells, c, depth) && Tiles(b, w, bells, EndOf(a, c), depth)
    ensures Tiles(a + b, w, bells, c, depth) && EndOf(a + b, c) == EndOf(b, EndOf(a, c))
    decreases |a|
  {
    if a == [] {
      assert a + b == b;
    } else {
      TilesAppend(a[1..], b, w, bells, c + a[0].strides, depth);
      assert (a + b)[1..] == a[1..] + b;
    }
  }

  lemma {:induction false} ConcatMore(w: seq<seq<byte>>, more: seq<seq<byte>>, from: nat, n: nat)
    requires from + n <= |w|
    ensures Concat(w + more, from, n) == Concat(w, from, n)
  {
    if n > 0 {
      ConcatMore(w, more, from, n - 1);
    }
  }

  lemma {:induction false} TilesMore(e: seq<Event>, w: seq<seq<byte>>, more: seq<seq<byte>>, bells: seq<nat>, bell: nat,
                                     c: nat, depth: nat)
    requires depth > 0 && Tiles(e, w, bells, c, depth)
    ensures Tiles(e, w + more, bells + [bell], c, depth)
    decreases |e|
  {
    if e != [] {
      ConcatMore(w, more, c, e[0].strides);
      TilesMore(e[1..], w, more, bells, bell, c + e[0].strides, depth);
    }
  }

  // ---------------------------------------------------------------------
  // Runs
  // ---------------------------------------------------------------------

  /** The ring, the device's log of what it did and how far it has gone,
      everything the guest ever wrote, and where it rang its doorbell. */
  datatype State = State(ring: seq<seq<byte>>, log: seq<Event>, gone: nat, written: seq<seq<byte>>, bells: seq<nat>)

  datatype Step = Produce(strides: seq<seq<byte>>) | DoPoll(fetch: Fetch)

  /** A guest writes into the slots after its last, and rings the doorbell. */
  function Filled(ring: seq<seq<byte>>, at: nat, strides: seq<seq<byte>>): (r: seq<seq<byte>>)
    requires ring != []
    ensures |r| == |ring|
  {
    if strides == [] then ring
    else Filled(ring, at, strides[..|strides| - 1])[Rem(at + |strides| - 1, |ring|) := strides[|strides| - 1]]
  }

  ghost predicate StateOk(s: State) {
    && Holds(s.ring, s.written, s.gone)
    && Tiles(s.log, s.written, s.bells, 0, |s.ring|) && EndOf(s.log, 0) == s.gone
    && (s.gone < |s.written| ==> |s.written| in s.bells)
  }

  /** A guest leaves the strides it hasn't seen completed alone, and a slot
      free. */
  predicate Allowed(s: State, step: Step) {
    step.Produce? ==> |s.written| + |step.strides| < s.gone + |s.ring|
  }

  ghost function Next(s: State, step: Step): (s': State)
    requires s.ring != []
  {
    match step
    case Produce(x) =>
      s.(ring := Filled(s.ring, |s.written|, x), written := s.written + x, bells := s.bells + [|s.written + x|])
    case DoPoll(fetch) =>
      var e := PollFrom(s.ring, s.gone, |s.written|, fetch);
      s.(log := s.log + e, gone := EndOf(e, s.gone))
  }

  lemma {:induction false} FilledHolds(ring: seq<seq<byte>>, w: seq<seq<byte>>, c: nat, x: seq<seq<byte>>)
    requires Holds(ring, w, c) && |w| + |x| < c + |ring|
    ensures Holds(Filled(ring, |w|, x), w + x, c)
  {
    if x == [] {
      assert w + x == w;
    } else {
      var n := |x| - 1;
      FilledHolds(ring, w, c, x[..n]);
      var last := |w| + n;
      assert w + x == (w + x[..n]) + [x[n]];
      var r, r' := Filled(ring, |w|, x[..n]), Filled(ring, |w|, x);
      forall p | c <= p < |w + x| ensures r'[Rem(p, |ring|)] == (w + x)[p] {
        if p < last {
          RemApart(p, last, |ring|);
          assert r[Rem(p, |ring|)] == (w + x[..n])[p];
        }
      }
    }
  }

  lemma {:induction false} ProduceOk(s: State, x: seq<seq<byte>>)
    requires StateOk(s) && Allowed(s, Produce(x))
    ensures StateOk(Next(s, Produce(x)))
  {
    FilledHolds(s.ring, s.written, s.gone, x);
    TilesMore(s.log, s.written, x, s.bells, |s.written + x|, 0, |s.ring|);
  }

  lemma {:induction false} PollOk(s: State, fetch: Fetch)
    requires StateOk(s)
    ensures StateOk(Next(s, DoPoll(fetch)))
  {
    var e := PollFrom(s.ring, s.gone, |s.written|, fetch);
    PollTiles(s.ring, s.written, s.bells, s.gone, fetch);
    TilesAppend(s.log, e, s.written, s.bells, 0, |s.ring|);
  }

  lemma {:induction false} NextOk(s: State, step: Step)
    requires StateOk(s) && Allowed(s, step)
    ensures StateOk(Next(s, step))
  {
    match step
    case Produce(x) => ProduceOk(s, x);
    case DoPoll(fetch) => PollOk(s, fetch);
  }

  ghost predicate IsRun(s: State, steps: seq<Step>)
    requires StateOk(s)
    decreases |steps|
  {
    steps == [] || (Allowed(s, steps[0]) && (NextOk(s, steps[0]); IsRun(Next(s, steps[0]), steps[1..])))
  }

  ghost function After(s: State, steps: seq<Step>): (r: State)
    requires StateOk(s) && IsRun(s, steps)
    ensures StateOk(r)
    decreases |steps|
  {
    if steps == [] then s else NextOk(s, steps[0]); After(Next(s, steps[0]), steps[1..])
  }

  function NewQueue(ring: seq<seq<byte>>): (s: State) { State(ring, [], 0, [], []) }

  /** In every run, whatever reads fail: all that was written up to a point has
      been run or refused, in order, each stride once, each command as it was
      written and refused only for cause, and what lies past that point is still
      there to be retried. */
  lemma {:induction false} EachCommandOnce(ring: seq<seq<byte>>, steps: seq<Step>)
    requires ring != []
    ensures var s := NewQueue(ring);
      && StateOk(s)
      && (IsRun(s, steps) ==>
            var s' := After(s, steps);
            && EndOf(s'.log, 0) == s'.gone <= |s'.written|
            && Tiles(s'.log, s'.written, s'.bells, 0, |s'.ring|)
            && Holds(s'.ring, s'.written, s'.gone))
  {
  }

  // ---------------------------------------------------------------------
  // A guest that writes whole commands
  // ---------------------------------------------------------------------

  /** The strides from c to x are commands one after another, none longer than
      one may be. */
  predicate Whole(w: seq<seq<byte>>, c: nat, x: nat)
    requires x <= |w|
    decreases x - c
  {
    c == x || (c < x && Strides(w[c]) <= MAX_STRIDES && c + Strides(w[c]) <= x && Whole(w, c + Strides(w[c]), x))
  }

  /** The commands they are. */
  function Commands(w: seq<seq<byte>>, c: nat, x: nat): (cmds: seq<seq<seq<byte>>>)
    requires x <= |w| && Whole(w, c, x)
    decreases x - c
  {
    if c == x then [] else [w[c..c + Strides(w[c])]] + Commands(w, c + Strides(w[c]), x)
  }

  /** A command's bytes. */
  function Bytes(cmd: seq<seq<byte>>): (b: seq<byte>) {
    if cmd == [] then [] else Bytes(cmd[..|cmd| - 1]) + cmd[|cmd| - 1]
  }

  lemma {:induction false} WholeJoin(w: seq<seq<byte>>, c: nat, x: nat, y: nat)
    requires x <= y <= |w| && Whole(w, c, x) && Whole(w, x, y)
    ensures Whole(w, c, y)
    decreases x - c
  {
    if c < x {
      WholeJoin(w, c + Strides(w[c]), x, y);
    }
  }

  /** What is between two places that are each a whole number of commands from
      the same place is whole. */
  lemma {:induction false} WholeBetween(w: seq<seq<byte>>, a: nat, c: nat, x: nat)
    requires c <= x <= |w| && Whole(w, a, c) && Whole(w, a, x)
    ensures Whole(w, c, x)
    decreases c - a
  {
    if a < c {
      WholeBetween(w, a + Strides(w[a]), c, x);
    }
  }

  lemma {:induction false} WholeMore(w: seq<seq<byte>>, more: seq<seq<byte>>, c: nat, x: nat)
    requires x <= |w| && Whole(w, c, x)
    ensures Whole(w + more, c, x)
    decreases x - c
  {
    if c < x {
      WholeMore(w, more, c + Strides(w[c]), x);
    }
  }

  lemma {:induction false} WholeAfter(w: seq<seq<byte>>, more: seq<seq<byte>>, c: nat, x: nat, b: nat)
    requires x <= |more| && Whole(more, c, x) && b == |w| + c
    ensures Whole(w + more, b, |w| + x)
    decreases x - c
  {
    if c < x {
      var n := Strides(more[c]);
      assert (w + more)[b] == more[c];
      WholeAfter(w, more, c + n, x, b + n);
    }
  }

  /** Writing whole commands, and nothing else. */
  predicate WritesWhole(steps: seq<Step>) {
    forall i :: 0 <= i < |steps| && steps[i].Produce? ==> Whole(steps[i].strides, 0, |steps[i].strides|)
  }

  /** All of a guest's doorbells come after whole commands. */
  predicate BellsWhole(w: seq<seq<byte>>, bells: seq<nat>) {
    forall x :: x in bells ==> x <= |w| && Whole(w, 0, x)
  }

  lemma {:induction false} ConcatIsBytes(w: seq<seq<byte>>, c: nat, n: nat)
    requires c + n <= |w|
    ensures Concat(w, c, n) == Bytes(w[c..c + n])
  {
    if n > 0 {
      ConcatIsBytes(w, c, n - 1);
      assert w[c..c + n][..n - 1] == w[c..c + n - 1];
    }
  }

  /** Whether an event is a command's running. */
  predicate RanOne(e: Event, cmd: seq<seq<byte>>) {
    e.Ran? && e.strides == |cmd| && e.wqe == Bytes(cmd)
  }

  /** Such commands are all run: the k-th event is the k-th of them. */
  predicate RanAll(e: seq<Event>, cmds: seq<seq<seq<byte>>>) {
    |e| <= |cmds| && forall k :: 0 <= k < |e| ==> RanOne(e[k], cmds[k])
  }

  lemma {:induction false} RanFirst(e: seq<Event>, cmd: seq<seq<byte>>, cmds: seq<seq<seq<byte>>>)
    requires e != [] && RanOne(e[0], cmd) && RanAll(e[1..], cmds)
    ensures RanAll(e, [cmd] + cmds)
  {
    forall k | 0 <= k < |e| ensures RanOne(e[k], ([cmd] + cmds)[k]) {
      if k > 0 {
        assert e[k] == e[1..][k - 1];
      }
    }
  }

  /** An event that accounts for strides of whole commands ran one. */
  lemma {:induction false} AccountsRan(e: Event, w: seq<seq<byte>>, bells: seq<nat>, c: nat, depth: nat)
    requires depth > 0 && Accounts(e, w, bells, c, depth) && BellsWhole(w, bells) && Whole(w, 0, c)
    ensures var n := Strides(w[c]);
      c + n <= |w| && e.strides == n && Whole(w, 0, c + n) && RanOne(e, w[c..c + n])
  {
    var n, x := Strides(w[c]), c + e.avail;
    WholeBetween(w, 0, c, x);
    WholeJoin(w, 0, c, x);
    assert Whole(w, c + n, c + n);
    assert Whole(w, c, c + n);
    WholeJoin(w, 0, c, c + n);
    ConcatIsBytes(w, c, n);
  }

  lemma {:induction false} TilesRan(e: seq<Event>, w: seq<seq<byte>>, bells: seq<nat>, c: nat, depth: nat)
    requires depth > 0 && Tiles(e, w, bells, c, depth) && BellsWhole(w, bells) && c <= |w| && Whole(w, 0, c)
    requires Whole(w, c, |w|)
    ensures RanAll(e, Commands(w, c, |w|))
    decreases |e|
  {
    if e != [] {
      AccountsRan(e[0], w, bells, c, depth);
      var n := Strides(w[c]);
      TilesRan(e[1..], w, bells, c + n, depth);
      RanFirst(e, w[c..c + n], Commands(w, c + n, |w|));
    }
  }

  ghost predicate GuestWhole(s: State) { Whole(s.written, 0, |s.written|) && BellsWhole(s.written, s.bells) }

  lemma {:induction false} ProduceWhole(s: State, x: seq<seq<byte>>)
    requires s.ring != [] && Whole(x, 0, |x|) && GuestWhole(s)
    ensures GuestWhole(Next(s, Produce(x)))
  {
    var w, w' := s.written, s.written + x;
    WholeMore(w, x, 0, |w|);
    WholeAfter(w, x, 0, |x|, |w|);
    WholeJoin(w', 0, |w|, |w'|);
    forall b | b in s.bells + [|w'|] ensures b <= |w'| && Whole(w', 0, b) {
      if b in s.bells {
        WholeMore(w, x, 0, b);
      }
    }
  }

  lemma {:induction false} RunWhole(s: State, steps: seq<Step>)
    requires StateOk(s) && IsRun(s, steps) && WritesWhole(steps) && GuestWhole(s)
    ensures GuestWhole(After(s, steps))
    decreases |steps|
  {
    if steps != [] {
      NextOk(s, steps[0]);
      if steps[0].Produce? {
        ProduceWhole(s, steps[0].strides);
      }
      RunWhole(Next(s, steps[0]), steps[1..]);
    }
  }

  /** In every run of a guest that writes whole commands, however they fall in
      the ring, are rung for and are polled, and whatever reads fail: the k-th
      thing the device does is to run the k-th command, with its bytes, and none
      is refused. */
  lemma {:induction false} EveryCommandRuns(ring: seq<seq<byte>>, steps: seq<Step>)
    requires ring != [] && WritesWhole(steps)
    ensures var s := NewQueue(ring);
      StateOk(s) && (IsRun(s, steps) ==>
        var s' := After(s, steps);
        Whole(s'.written, 0, |s'.written|) && RanAll(s'.log, Commands(s'.written, 0, |s'.written|)))
  {
    var s := NewQueue(ring);
    if IsRun(s, steps) {
      RunWhole(s, steps);
      var s' := After(s, steps);
      TilesRan(s'.log, s'.written, s'.bells, 0, |s'.ring|);
    }
  }
}
