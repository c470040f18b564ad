/** The limit on messages a guest can cause as often as it likes. */
module LogLimit {
  const BURST := 10
  const INTERVAL := 5000

  /** ErnicLogLimit */
  datatype Limit = Limit(start: nat, logged: nat, held: nat)

  /** What comes of asking to log a line: whether it may be, and how many held
      back lines it is to report. */
  datatype Answer = Answer(lim: Limit, ok: bool, reported: nat)

  /** The limit as a call finds it, its interval renewed if that is over. */
  function Renewed(lim: Limit, now: nat): (r: Limit) {
    if now < lim.start || now - lim.start >= INTERVAL then lim.(start := now, logged := 0) else lim
  }

  /** ernic_log_limit() */
  function Asked(lim: Limit, now: nat): (r: Answer) {
    var l := Renewed(lim, now);
    if l.logged >= BURST then Answer(l.(held := l.held + 1), false, 0)
    else Answer(l.(logged := l.logged + 1, held := 0), true, l.held)
  }

  /** ernic_log_limit(), in place. */
  class Limiter {
    var start: nat
    var logged: nat
    var held: nat

    constructor ()
      ensures View() == Limit(0, 0, 0)
    {
      start, logged, held := 0, 0, 0;
    }

    ghost function View(): (l: Limit)
      reads this
    {
      Limit(start, logged, held)
    }

    method Ask(now: nat) returns (ok: bool, reported: nat)
      modifies this
      ensures Answer(View(), ok, reported) == Asked(old(View()), now)
    {
      if now < start || now - start >= INTERVAL {
        start, logged := now, 0;
      }
      if logged >= BURST {
        held := held + 1;
        return false, 0;
      }
      logged := logged + 1;
      reported := held;
      held := 0;
      return true, reported;
    }
  }

  // ---------------------------------------------------------------------
  // Runs
  // ---------------------------------------------------------------------

  /** The limit after calls at the times given, when each line was let through
      and how many held back lines have been reported. */
  datatype Trace = Trace(lim: Limit, lets: seq<nat>, reported: nat)

  function Run(times: seq<nat>): (t: Trace) {
    if times == [] then Trace(Limit(0, 0, 0), [], 0)
    else
      var t := Run(times[..|times| - 1]);
      var now := times[|times| - 1];
      var a := Asked(t.lim, now);
      Trace(a.lim, if a.ok then t.lets + [now] else t.lets, t.reported + a.reported)
  }

  /** Nothing is lost count of: every call's line was let through, has been
      reported as held back, or is still to be. */
  lemma {:induction false} NothingLost(times: seq<nat>)
    ensures var t := Run(times); |times| == |t.lets| + t.reported + t.lim.held
  {
    if times != [] {
      NothingLost(times[..|times| - 1]);
    }
  }

  /** How many of the lines were let through in the window from t on. */
  function InWindow(lets: seq<nat>, t: nat): (n: nat) {
    if lets == [] then 0
    else InWindow(lets[..|lets| - 1], t) + if t <= lets[|lets| - 1] < t + INTERVAL then 1 else 0
  }

  lemma {:induction false} WindowNext(lets: seq<nat>, now: nat, t: nat)
    ensures InWindow(lets + [now], t) == InWindow(lets, t) + if t <= now < t + INTERVAL then 1 else 0
  {
  }

  lemma {:induction false} NoneInWindow(lets: seq<nat>, t: nat)
    requires forall i :: 0 <= i < |lets| ==> lets[i] < t
    ensures InWindow(lets, t) == 0
  {
    if lets != [] {
      NoneInWindow(lets[..|lets| - 1], t);
    }
  }

  predicate Sorted(times: seq<nat>) {
    forall i, j :: 0 <= i < j < |times| ==> times[i] <= times[j]
  }

  /** The most a window can hold, by where the interval under way begins. */
  function Most(l: Limit, t: nat): (n: nat) {
    if l.start <= t then l.logged
    else if l.start < t + INTERVAL then BURST + l.logged
    else 2 * BURST
  }

  ghost predicate TraceOk(t: Trace, last: nat) {
    && t.lim.logged <= BURST && t.lim.start <= last < t.lim.start + INTERVAL
    && (forall i :: 0 <= i < |t.lets| ==> t.lets[i] <= last)
    && (forall w: nat :: InWindow(t.lets, w) <= Most(t.lim, w))
  }

  /** Beginning a new interval. */
  lemma {:induction false} RenewOk(t: Trace, last: nat, now: nat)
    requires TraceOk(t, last) && last <= now
    ensures TraceOk(t.(lim := Renewed(t.lim, now)), now)
  {
    if now >= t.lim.start + INTERVAL {
      forall w: nat ensures InWindow(t.lets, w) <= Most(Renewed(t.lim, now), w) {
        assert InWindow(t.lets, w) <= Most(t.lim, w);
        if now <= w {
          NoneInWindow(t.lets, w);
        }
      }
    }
  }

  lemma {:induction false} AskOk(t: Trace, last: nat, now: nat)
    requires TraceOk(t, last) && last <= now
    ensures var a := Asked(t.lim, now);
      TraceOk(Trace(a.lim, if a.ok then t.lets + [now] else t.lets, t.reported + a.reported), now)
  {
    RenewOk(t, last, now);
    var l := Renewed(t.lim, now);
    var a := Asked(t.lim, now);
    if a.ok {
      forall w: nat ensures InWindow(t.lets + [now], w) <= Most(a.lim, w) {
        WindowNext(t.lets, now, w);
        assert InWindow(t.lets, w) <= Most(l, w);
      }
    } else {
      forall w: nat ensures InWindow(t.lets, w) <= Most(a.lim, w) {
        assert InWindow(t.lets, w) <= Most(l, w);
      }
    }
  }

  lemma {:induction false} RunOk(times: seq<nat>)
    requires Sorted(times) && times != []
    ensures TraceOk(Run(times), times[|times| - 1])
  {
    var before := times[..|times| - 1];
    var now := times[|times| - 1];
    if before == [] {
      FirstOk(now);
    } else {
      RunOk(before);
      AskOk(Run(before), before[|before| - 1], now);
    }
  }

  lemma {:induction false} FirstOk(now: nat)
    ensures var a := Asked(Limit(0, 0, 0), now);
      TraceOk(Trace(a.lim, if a.ok then [] + [now] else [], 0 + a.reported), now)
  {
    forall w: nat ensures InWindow([] + [now], w) <= 1 {
      WindowNext([], now, w);
    }
  }

  /** On a clock that never goes back, no window of an interval's length lets
      through more than twice the burst. */
  lemma {:induction false} WindowBound(times: seq<nat>, t: nat)
    requires Sorted(times)
    ensures InWindow(Run(times).lets, t) <= 2 * BURST
  {
    if times != [] {
      RunOk(times);
      assert InWindow(Run(times).lets, t) <= Most(Run(times).lim, t);
    }
  }

  // ---------------------------------------------------------------------
  // Which windows the burst alone bounds
  // ---------------------------------------------------------------------

  /** Where the interval under way began after the first k calls. */
  function StartAfter(times: seq<nat>, k: nat): (s: nat)
    requires k <= |times|
  {
    Run(times[..k]).lim.start
  }

  /** Whether an interval that begins at s crowds the window from t: it begins
      inside, and another was under way from t on. The first begins at 0, so
      the second is the only one that can begin before two have gone by. */
  predicate Crowds(t: nat, s: nat) {
    t < s < t + INTERVAL && INTERVAL <= s && (t < INTERVAL || 2 * INTERVAL <= s)
  }

  predicate Crowded(times: seq<nat>, t: nat) {
    exists k :: 0 <= k <= |times| && Crowds(t, StartAfter(times, k))
  }

  lemma {:induction false} CrowdedLater(times: seq<nat>, t: nat)
    requires times != [] && !Crowded(times, t)
    ensures !Crowded(times[..|times| - 1], t) && !Crowds(t, Run(times).lim.start)
  {
    var before := times[..|times| - 1];
    assert times[..|times|] == times;
    assert StartAfter(times, |times|) == Run(times).lim.start;
    forall k | 0 <= k <= |before| ensures StartAfter(before, k) == StartAfter(times, k) {
      assert before[..k] == times[..k];
    }
  }

  /** Intervals begin an interval's length apart. */
  lemma {:induction false} StartsApart(times: seq<nat>, k: nat, n: nat)
    requires Sorted(times) && k <= n <= |times|
    ensures StartAfter(times, n) == StartAfter(times, k) || StartAfter(times, n) >= StartAfter(times, k) + INTERVAL
    decreases n - k
  {
    if k < n {
      StartsApart(times, k, n - 1);
      var before := times[..n - 1];
      assert times[..n][..n - 1] == before;
      if before == [] {
        assert StartAfter(times, n - 1) == 0;
      } else {
        RunOk(before);
        assert times[n - 2] <= times[n - 1];
      }
    }
  }

  /** The limit after the calls before the last, and after the last. */
  lemma {:induction false} LastCall(times: seq<nat>) returns (before: seq<nat>, now: nat)
    requires Sorted(times) && times != []
    ensures before == times[..|times| - 1] && now == times[|times| - 1] && Sorted(before)
    ensures before != [] ==> TraceOk(Run(before), before[|before| - 1]) && before[|before| - 1] <= now
    ensures TraceOk(Run(times), now)
    ensures Run(before).lim.start == 0 || Run(before).lim.start >= INTERVAL
  {
    before, now := times[..|times| - 1], times[|times| - 1];
    RunOk(times);
    StartsApart(before, 0, |before|);
    assert before[..0] == [] && before[..|before|] == before;
    if before != [] {
      RunOk(before);
    }
  }

  /** On a clock that never goes back, a window that no interval crowds lets
      through no more than the burst. */
  lemma {:induction false} QuietWindow(times: seq<nat>, t: nat)
    requires Sorted(times) && !Crowded(times, t)
    ensures InWindow(Run(times).lets, t) <= BURST
    ensures Run(times).lim.start < t + INTERVAL ==> InWindow(Run(times).lets, t) <= Run(times).lim.logged
  {
    if times != [] {
      var before, now := LastCall(times);
      CrowdedLater(times, t);
      QuietWindow(before, t);
      WindowNext(Run(before).lets, now, t);
      var l := Run(times).lim;
      assert InWindow(Run(times).lets, t) <= Most(l, t);
      if t < l.start < t + INTERVAL && l.start != Run(before).lim.start {
        NoneInWindow(Run(before).lets, t);
      }
    }
  }

  /** What the header promises: the window that begins where an interval begins
      lets through no more than the burst, whenever the calls come. */
  lemma {:induction false} IntervalBound(times: seq<nat>, k: nat)
    requires Sorted(times) && k <= |times|
    ensures InWindow(Run(times).lets, StartAfter(times, k)) <= BURST
  {
    var t := StartAfter(times, k);
    forall n | 0 <= n <= |times| ensures !Crowds(t, StartAfter(times, n)) {
      if n < k {
        StartsApart(times, n, k);
      } else {
        StartsApart(times, k, n);
      }
    }
    QuietWindow(times, t);
  }

  /** The times, and n more calls at one time. */
  function Then(times: seq<nat>, now: nat, n: nat): (r: seq<nat>) {
    if n == 0 then times else Then(times, now, n - 1) + [now]
  }

  /** A call made when fewer than the burst have been let through. */
  lemma {:induction false} OnePasses(times: seq<nat>, now: nat, w: nat)
    requires var l := Renewed(Run(times).lim, now);
      w <= now < w + INTERVAL && l.start <= now < l.start + INTERVAL && l.logged < BURST
    ensures var t, l := Run(times + [now]), Renewed(Run(times).lim, now);
      && t.lim.logged == l.logged + 1 && t.lim.start == l.start
      && InWindow(t.lets, w) == InWindow(Run(times).lets, w) + 1
  {
    assert (times + [now])[..|times|] == times;
    WindowNext(Run(times).lets, now, w);
  }

  /** A burst that finds its interval fresh is let through. */
  lemma {:induction false} BurstPasses(times: seq<nat>, now: nat, n: nat, w: nat)
    requires 0 < n <= BURST && w <= now < w + INTERVAL
    requires var l := Renewed(Run(times).lim, now); l.start <= now < l.start + INTERVAL && l.logged == 0
    ensures var t, l := Run(Then(times, now, n)), Renewed(Run(times).lim, now);
      && t.lim.logged == n && t.lim.start == l.start
      && InWindow(t.lets, w) == InWindow(Run(times).lets, w) + n
  {
    var before := Then(times, now, n - 1);
    if n > 1 {
      BurstPasses(times, now, n - 1, w);
    }
    OnePasses(before, now, w);
  }

  lemma {:induction false} ThenSorted(times: seq<nat>, now: nat, n: nat)
    requires Sorted(times) && forall i :: 0 <= i < |times| ==> times[i] <= now
    ensures Sorted(Then(times, now, n)) && forall i :: 0 <= i < |Then(times, now, n)| ==> Then(times, now, n)[i] <= now
  {
    if n > 0 {
      ThenSorted(times, now, n - 1);
    }
  }

  /** The bound is met: a burst at the end of one interval and one at the start
      of the next fall within one window, so the burst alone is no bound. */
  lemma {:induction false} WindowBoundMet()
    ensures var times := Then(Then([], INTERVAL - 1, BURST), INTERVAL, BURST);
      Sorted(times) && InWindow(Run(times).lets, 1) == 2 * BURST
  {
    var first := Then([], INTERVAL - 1, BURST);
    BurstPasses([], INTERVAL - 1, BURST, 1);
    BurstPasses(first, INTERVAL, BURST, 1);
    ThenSorted([], INTERVAL - 1, BURST);
    ThenSorted(first, INTERVAL, BURST);
  }

  /** Whether some calls crowd the window from t with an interval that begins at
      s, and it holds more than the burst. */
  ghost predicate Overfull(times: seq<nat>, t: nat, s: nat) {
    Sorted(times) && Crowded(times, t) && Run(times).lim.start == s && InWindow(Run(times).lets, t) > BURST
  }

  /** A burst at s, after calls that let some lines through from t on. */
  lemma {:induction false} ThenBurst(first: seq<nat>, t: nat, s: nat)
    requires Crowds(t, s) && Sorted(first) && (forall i :: 0 <= i < |first| ==> first[i] <= s)
    requires Run(first).lim.start + INTERVAL <= s && InWindow(Run(first).lets, t) > 0
    ensures Overfull(Then(first, s, BURST), t, s)
  {
    var times := Then(first, s, BURST);
    BurstPasses(first, s, BURST, t);
    ThenSorted(first, s, BURST);
    assert times[..|times|] == times;
    assert Crowds(t, StartAfter(times, |times|));
  }

  /** And wherever an interval can crowd a window, there are calls for which
      one begins there, and the window holds more than the burst. */
  lemma {:induction false} BusyWindow(t: nat, s: nat) returns (times: seq<nat>)
    requires Crowds(t, s)
    ensures Overfull(times, t, s)
  {
    var first: seq<nat>;
    if t < INTERVAL {
      first := Then([], t, BURST);
      BurstPasses([], t, BURST, t);
      ThenSorted([], t, BURST);
    } else {
      first := Then(Then([], s - INTERVAL, 1), t, BURST - 1);
      Opener(s - INTERVAL, t);
    }
    ThenBurst(first, t, s);
    times := Then(first, s, BURST);
  }

  /** A call that begins an interval, and all but one of the burst later in it. */
  lemma {:induction false} Opener(at: nat, t: nat)
    requires INTERVAL <= at < t < at + INTERVAL
    ensures var times := Then(Then([], at, 1), t, BURST - 1);
      && Sorted(times) && (forall i :: 0 <= i < |times| ==> times[i] <= t)
      && Run(times).lim.start == at && InWindow(Run(times).lets, t) == BURST - 1
  {
    var one := Then([], at, 1);
    BurstPasses([], at, 1, at);
    NoneInWindow(Run(one).lets, t);
    FillsUp(one, t, BURST - 1);
    ThenSorted([], at, 1);
    ThenSorted(one, t, BURST - 1);
  }

  /** Calls in an interval that has room for them are let through. */
  lemma {:induction false} FillsUp(times: seq<nat>, now: nat, n: nat)
    requires var l := Run(times).lim; l.start <= now < l.start + INTERVAL && l.logged + n <= BURST
    ensures var t := Run(Then(times, now, n));
      && t.lim.start == Run(times).lim.start && t.lim.logged == Run(times).lim.logged + n
      && InWindow(t.lets, now) == InWindow(Run(times).lets, now) + n
  {
    if n > 0 {
      FillsUp(times, now, n - 1);
      var before := Then(times, now, n - 1);
      assert (before + [now])[..|before|] == before;
      WindowNext(Run(before).lets, now, now);
    }
  }
}
