/** Work that is done a turn at a time, and may be cut short within any of them:
    what a loop over such turns comes to, and how to tell. */
module Turns {
  import opened Wire

  /** Work of one kind: a turn takes the state from the d-th unit to the e-th, so
      many units on if it isn't cut short; a turn of no unit at all lowers the
      rank, if more is to follow it. */
  datatype Work<!S> = Work(turn: (S, nat, nat) -> S, units: (S, nat) -> nat, rank: S -> nat)

  /** The state after the work from the d-th unit to the n-th. */
  function Worked<S>(w: Work<S>, s: S, d: nat, n: nat): (r: S)
    decreases if d < n then n - d else 0, w.rank(s)
  {
    if d >= n then s
    else
      var f := d + w.units(s, d);
      if f >= n then w.turn(s, d, n)
      else if f > d || w.rank(w.turn(s, d, d)) < w.rank(s) then Worked(w, w.turn(s, d, f), f, n)
      else s
  }

  /** Whether a state is where the work that began with s0 has got to after d
      units, as far as obs can tell, whatever is still to come. */
  ghost predicate Resumes<S(!new), T(!new)>(w: Work<S>, obs: S -> T, s0: S, s: S, d: nat) {
    forall n :: d <= n ==> obs(Worked(w, s, d, n)) == obs(Worked(w, s0, 0, n))
  }

  lemma {:induction false} Begins<S(!new), T(!new)>(w: Work<S>, obs: S -> T, s: S)
    ensures Resumes(w, obs, s, s, 0)
  {
  }

  /** A turn of nothing shows nothing. */
  ghost predicate Idles<S(!new), T(!new)>(w: Work<S>, obs: S -> T, s: S, d: nat) { obs(w.turn(s, d, d)) == obs(s) }

  /** A turn that is cut short, or is the last. */
  lemma {:induction false} CutAt<S(!new), T(!new)>(w: Work<S>, obs: S -> T, s0: S, s: S, d: nat, n: nat)
    requires Resumes(w, obs, s0, s, d) && d <= n <= d + w.units(s, d) && Idles(w, obs, s, d)
    ensures obs(Worked(w, s0, 0, n)) == obs(w.turn(s, d, n))
  {
    assert obs(Worked(w, s, d, n)) == obs(Worked(w, s0, 0, n));
  }

  /** Or there is none. */
  lemma {:induction false} StopsAt<S(!new), T(!new)>(w: Work<S>, obs: S -> T, s0: S, s: S, d: nat)
    requires Resumes(w, obs, s0, s, d)
    ensures obs(Worked(w, s0, 0, d)) == obs(s)
  {
    assert obs(Worked(w, s, d, d)) == obs(Worked(w, s0, 0, d));
  }

  /** A whole turn. */
  lemma {:induction false} TurnOn<S(!new), T(!new)>(w: Work<S>, obs: S -> T, s0: S, s: S, d: nat, f: nat)
    requires Resumes(w, obs, s0, s, d) && f == d + w.units(s, d) && Idles(w, obs, s, d)
    requires f > d || w.rank(w.turn(s, d, d)) < w.rank(s)
    ensures Resumes(w, obs, s0, w.turn(s, d, f), f)
  {
    var s' := w.turn(s, d, f);
    forall n | f <= n ensures obs(Worked(w, s', f, n)) == obs(Worked(w, s0, 0, n)) {
      assert obs(Worked(w, s, d, n)) == obs(Worked(w, s0, 0, n));
    }
  }

  /** Whether a turn leads from an ok state that looks like at(d) to one that looks
      like at(e), and is ok if there is more to do, up to n. */
  ghost predicate Keeps<S(!new), T(!new)>(w: Work<S>, obs: S -> T, ok: (S, nat) -> bool, at: nat -> T, n: nat,
                                          s: S, d: nat, e: nat)
  {
    ok(s, d) && obs(s) == at(d) && d < n && d <= e <= n && e <= d + w.units(s, d) ==>
      var s' := w.turn(s, d, e);
      && obs(s') == at(e)
      && (e == d + w.units(s, d) && e < n ==> ok(s', e) && (e == d ==> w.rank(s') < w.rank(s)))
  }

  /** What each turn keeps, the work keeps. */
  lemma {:induction false} WorkKeeps<S(!new), T(!new)>(w: Work<S>, obs: S -> T, ok: (S, nat) -> bool, at: nat -> T,
                                                       s: S, d: nat, n: nat)
    requires forall s, d: nat, e: nat :: Keeps(w, obs, ok, at, n, s, d, e)
    requires (d < n ==> ok(s, d)) && obs(s) == at(d) && d <= n
    ensures obs(Worked(w, s, d, n)) == at(n)
    decreases n - d, w.rank(s)
  {
    if d < n {
      var f := d + w.units(s, d);
      var e := if f >= n then n else f;
      assert Keeps(w, obs, ok, at, n, s, d, e);
      if f < n {
        WorkKeeps(w, obs, ok, at, w.turn(s, d, f), f, n);
      }
    }
  }

  // ---------------------------------------------------------------------
  // One after the other
  // ---------------------------------------------------------------------

  /** The state after a step for each of the first n. */
  function Fold<S>(step: (S, nat) -> S, s: S, n: nat): (r: S) {
    if n == 0 then s else step(Fold(step, s, n - 1), n - 1)
  }

  /** What no step but the i-th changes is what it was before that, and what it made of
      it ever after. */
  lemma {:induction false} FoldOnly<S(!new), T(!new)>(step: (S, nat) -> S, obs: S -> T, ok: S -> bool, s: S, i: nat,
                                                      n: nat)
    requires ok(s) && forall x, k: nat :: ok(x) ==> ok(step(x, k)) && (k != i ==> obs(step(x, k)) == obs(x))
    ensures ok(Fold(step, s, n))
    ensures obs(Fold(step, s, n)) == if n <= i then obs(s) else obs(Fold(step, s, i + 1))
  {
    if n > 0 {
      FoldOnly(step, obs, ok, s, i, n - 1);
      assert ok(step(Fold(step, s, n - 1), n - 1));
    }
  }

  /** What the k-th of a list that only grows is due to: the step that first reaches
      it. */
  lemma {:induction false} FoldCovers<S(!new), E>(step: (S, nat) -> S, list: S -> seq<E>, ok: S -> bool, s: S, n: nat,
                                                  k: nat)
    returns (i: nat)
    requires ok(s) && forall x, m: nat :: ok(x) ==> ok(step(x, m)) && list(x) <= list(step(x, m))
    requires |list(s)| <= k < |list(Fold(step, s, n))|
    ensures i < n && ok(Fold(step, s, i)) && |list(Fold(step, s, i))| <= k < |list(Fold(step, s, i + 1))|
    ensures list(Fold(step, s, i + 1)) <= list(Fold(step, s, n))
  {
    FoldOk(step, ok, s, n - 1);
    i := n - 1;
    if k < |list(Fold(step, s, n - 1))| {
      i := FoldCovers(step, list, ok, s, n - 1, k);
    }
  }

  lemma {:induction false} FoldOk<S(!new)>(step: (S, nat) -> S, ok: S -> bool, s: S, n: nat)
    requires ok(s) && forall x, m: nat :: ok(x) ==> ok(step(x, m))
    ensures ok(Fold(step, s, n))
  {
    if n > 0 {
      FoldOk(step, ok, s, n - 1);
    }
  }

  // ---------------------------------------------------------------------
  // As long as there is a next
  // ---------------------------------------------------------------------

  /** The states a loop goes through: next says which follows one, if any does. */
  function Trail<S>(next: S -> Option<S>, s: S, left: nat): (r: seq<S>)
    ensures |r| > 0 && r[0] == s
  {
    if left == 0 || next(s).None? then [s] else [s] + Trail(next, next(s).value, left - 1)
  }

  function Last<S>(s: seq<S>): (x: S)
    requires |s| > 0
  {
    s[|s| - 1]
  }

  /** What the k-th of a list that only grows is due to: the state whose next first
      reaches it. */
  lemma {:induction false} TrailCovers<S(!new), E>(next: S -> Option<S>, list: S -> seq<E>, ok: S -> bool, s: S,
                                                   left: nat, k: nat)
    returns (x: S)
    requires ok(s) && forall y :: ok(y) && next(y).Some? ==> ok(next(y).value) && list(y) <= list(next(y).value)
    requires |list(s)| <= k < |list(Last(Trail(next, s, left)))|
    ensures x in Trail(next, s, left) && ok(x) && next(x).Some? && |list(x)| <= k < |list(next(x).value)|
    ensures list(next(x).value) <= list(Last(Trail(next, s, left)))
  {
    var y := next(s).value;
    TrailGrows(next, list, ok, y, left - 1);
    x := s;
    if k >= |list(y)| {
      x := TrailCovers(next, list, ok, y, left - 1, k);
    }
  }

  lemma {:induction false} TrailGrows<S(!new), E>(next: S -> Option<S>, list: S -> seq<E>, ok: S -> bool, s: S,
                                                  left: nat)
    requires ok(s) && forall y :: ok(y) && next(y).Some? ==> ok(next(y).value) && list(y) <= list(next(y).value)
    ensures list(s) <= list(Last(Trail(next, s, left))) && ok(Last(Trail(next, s, left)))
  {
    if left > 0 && next(s).Some? {
      TrailGrows(next, list, ok, next(s).value, left - 1);
    }
  }

  /** A loop that can't go on for ever ends, in a state that has none next. */
  lemma {:induction false} TrailEnds<S(!new)>(next: S -> Option<S>, ok: (S, nat) -> bool, s: S, n: nat, left: nat)
    returns (k: nat)
    requires ok(s, n) && forall y, m: nat :: ok(y, m) ==> m < n + left && (next(y).Some? ==> ok(next(y).value, m + 1))
    ensures ok(Last(Trail(next, s, left)), k) && next(Last(Trail(next, s, left))).None?
    decreases left
  {
    k := n;
    if next(s).Some? {
      assert ok(next(s).value, n + 1);
      assert Trail(next, s, left) == [s] + Trail(next, next(s).value, left - 1);
      k := TrailEnds(next, ok, next(s).value, n + 1, left - 1);
    }
  }

  /** What each next keeps holds of every state. */
  lemma {:induction false} TrailAll<S(!new)>(next: S -> Option<S>, ok: S -> bool, s: S, left: nat, x: S)
    requires ok(s) && x in Trail(next, s, left)
    requires forall y :: ok(y) && next(y).Some? ==> ok(next(y).value)
    ensures ok(x)
  {
    if x != s {
      var y := next(s).value;
      assert ok(y);
      assert x in Trail(next, y, left - 1);
      TrailAll(next, ok, y, left - 1, x);
    }
  }
}
