/**
 The requests-per-minute budget of one tenant: a sliding-window log in a Redis sorted set, checked
 and extended by two separate pipelines, so that concurrent checks interleave.
 */
module RequestWindow {
  import opened Prelude

  const WINDOW_SECONDS := 60.0
  const KEY_TTL := 120.0

  /** `zset` holds the scores in the sorted set; `pending` the scores of checks that have counted but
      not yet added; `log` every score ever added (the admitted requests). */
  datatype Window = Window(clock: real, zset: seq<real>, expireAt: real, pending: seq<real>, log: seq<real>)

  /** Tick and Expire are the environment's; Count and Add are the two pipelines of a check. */
  datatype Step = Tick(now: real) | Count | Add(i: nat) | Expire

  /** What ZREMRANGEBYSCORE -inf..lo leaves. */
  function Kept(s: seq<real>, lo: real): seq<real> {
    if s == [] then []
    else if s[|s| - 1] > lo then Kept(s[..|s| - 1], lo) + [s[|s| - 1]]
    else Kept(s[..|s| - 1], lo)
  }

  function Next(limit: int, w: Window, step: Step): Window {
    match step
    case Tick(now) => if now >= w.clock then w.(clock := now) else w
    case Count =>
      var z := Kept(w.zset, w.clock - WINDOW_SECONDS);
      if |z| >= limit then w.(zset := z) else w.(zset := z, pending := w.pending + [w.clock])
    case Add(i) =>
      if i >= |w.pending| then w
      else w.(zset := w.zset + [w.pending[i]], expireAt := w.clock + KEY_TTL,
              pending := Remove(w.pending, i), log := w.log + [w.pending[i]])
    case Expire => if w.clock >= w.expireAt then w.(zset := []) else w
  }

  function Run(limit: int, w: Window, steps: seq<Step>): Window {
    if steps == [] then w else Next(limit, Run(limit, w, steps[..|steps| - 1]), steps[|steps| - 1])
  }

  /** At most k checks are between their two pipelines at any time. */
  ghost predicate AtMost(k: nat, limit: int, w: Window, steps: seq<Step>) {
    forall n :: 0 <= n <= |steps| ==> |Run(limit, w, steps[..n]).pending| <= k
  }

  function Start(now: real): Window {
    Window(now, [], now, [], [])
  }

  // Counting.

  function One(b: bool): nat {
    if b then 1 else 0
  }

  function Above(s: seq<real>, lo: real): nat {
    if s == [] then 0 else Above(s[..|s| - 1], lo) + One(s[|s| - 1] > lo)
  }

  /** x lies in the window (t - 60, t]. */
  predicate In(x: real, t: real) {
    t - 60.0 < x <= t
  }

  /** How many scores lie in the window (t - 60, t]. */
  function InWindow(s: seq<real>, t: real): nat {
    if s == [] then 0 else InWindow(s[..|s| - 1], t) + One(In(s[|s| - 1], t))
  }

  lemma AboveSnoc(s: seq<real>, x: real, lo: real)
    ensures Above(s + [x], lo) == Above(s, lo) + One(x > lo)
  {
    assert (s + [x])[..|s|] == s;
  }

  lemma InWindowSnoc(s: seq<real>, x: real, t: real)
    ensures InWindow(s + [x], t) == InWindow(s, t) + One(In(x, t))
  {
    assert (s + [x])[..|s|] == s;
  }

  lemma RemoveSnoc(s: seq<real>, i: nat)
    requires i + 1 < |s|
    ensures Remove(s, i) == Remove(s[..|s| - 1], i) + [s[|s| - 1]]
  {
    var n := |s| - 1;
    assert s[i + 1..] == s[..n][i + 1..] + [s[n]];
  }

  lemma {:induction false} InWindowRemove(s: seq<real>, i: nat, t: real)
    requires i < |s|
    ensures InWindow(s, t) == InWindow(Remove(s, i), t) + One(In(s[i], t))
  {
    var n := |s| - 1;
    if i < n {
      InWindowRemove(s[..n], i, t);
      RemoveSnoc(s, i);
      InWindowSnoc(Remove(s[..n], i), s[n], t);
    } else {
      assert Remove(s, i) == s[..n];
    }
  }

  lemma {:induction false} AboveAntitone(s: seq<real>, lo: real, hi: real)
    requires lo <= hi
    ensures Above(s, hi) <= Above(s, lo)
  {
    if s != [] {
      AboveAntitone(s[..|s| - 1], lo, hi);
    }
  }

  lemma {:induction false} InWindowAtMost(s: seq<real>, lo: real, t: real)
    ensures InWindow(s, t) <= |s|
    ensures lo <= t - WINDOW_SECONDS ==> InWindow(s, t) <= Above(s, lo)
  {
    if s != [] {
      InWindowAtMost(s[..|s| - 1], lo, t);
    }
  }

  /** Every score is at most hi / above lo. */
  ghost predicate UpTo(s: seq<real>, hi: real) {
    forall i :: 0 <= i < |s| ==> s[i] <= hi
  }

  ghost predicate AllAbove(s: seq<real>, lo: real) {
    forall i :: 0 <= i < |s| ==> s[i] > lo
  }

  lemma {:induction false} AboveExtremes(s: seq<real>, lo: real)
    ensures UpTo(s, lo) <==> Above(s, lo) == 0
    ensures AllAbove(s, lo) ==> Above(s, lo) == |s|
    ensures UpTo(s, lo + WINDOW_SECONDS) ==> InWindow(s, lo + WINDOW_SECONDS) == Above(s, lo)
  {
    if s != [] {
      AboveExtremes(s[..|s| - 1], lo);
    }
  }

  lemma {:induction false} KeptSize(s: seq<real>, lo: real)
    ensures |Kept(s, lo)| == Above(s, lo) && AllAbove(Kept(s, lo), lo)
  {
    if s != [] {
      KeptSize(s[..|s| - 1], lo);
    }
  }

  lemma {:induction false} KeptUpTo(s: seq<real>, lo: real, hi: real)
    requires UpTo(s, hi)
    ensures UpTo(Kept(s, lo), hi)
  {
    if s != [] {
      KeptUpTo(s[..|s| - 1], lo, hi);
    }
  }

  lemma {:induction false} KeptAbove(s: seq<real>, lo: real, l: real)
    requires l >= lo
    ensures Above(Kept(s, lo), l) == Above(s, l)
  {
    if s != [] {
      var n := |s| - 1;
      KeptAbove(s[..n], lo, l);
      if s[n] > lo {
        AboveSnoc(Kept(s[..n], lo), s[n], l);
      }
    }
  }

  // The invariant.

  function Bound(limit: int, k: nat): int {
    if limit <= 0 then 0 else limit + k - 1
  }

  /** The sorted set agrees with the log on everything that a count, now or later, looks at, although
      expiry and pruning have dropped older scores. */
  ghost predicate Faithful(w: Window) {
    && UpTo(w.zset, w.clock) && UpTo(w.pending, w.clock) && UpTo(w.log, w.clock)
    && UpTo(w.zset, w.expireAt - KEY_TTL)
    && Agree(w.zset, w.log, w.clock - WINDOW_SECONDS)
  }

  ghost predicate Agree(a: seq<real>, b: seq<real>, from: real) {
    forall lo :: lo >= from ==> Above(a, lo) == Above(b, lo)
  }

  ghost predicate WithinBound(limit: int, k: nat, w: Window) {
    forall t :: InWindow(w.log, t) + InWindow(w.pending, t) <= Bound(limit, k)
  }

  lemma StaysFaithful(limit: int, w: Window, step: Step)
    requires Faithful(w)
    ensures Faithful(Next(limit, w, step))
  {
    match step {
      case Tick(_) =>
      case Count =>
        var from := w.clock - WINDOW_SECONDS;
        KeptUpTo(w.zset, from, w.clock);
        KeptUpTo(w.zset, from, w.expireAt - KEY_TTL);
        forall lo | lo >= from ensures Above(Kept(w.zset, from), lo) == Above(w.log, lo) {
          KeptAbove(w.zset, from, lo);
        }
      case Add(i) =>
        if i < |w.pending| {
          AgreeSnoc(w.zset, w.log, w.pending[i], w.clock - WINDOW_SECONDS);
        }
      case Expire =>
        if w.clock >= w.expireAt {
          forall lo | lo >= w.clock - WINDOW_SECONDS ensures Above([], lo) == Above(w.log, lo) {
            AboveExtremes(w.zset, lo);
          }
        }
    }
  }

  lemma AgreeSnoc(a: seq<real>, b: seq<real>, x: real, from: real)
    requires Agree(a, b, from)
    ensures Agree(a + [x], b + [x], from)
  {
    forall lo | lo >= from ensures Above(a + [x], lo) == Above(b + [x], lo) {
      AboveSnoc(a, x, lo);
      AboveSnoc(b, x, lo);
    }
  }

  /** The decisive step: a count that passes saw fewer than limit scores of the last minute. */
  lemma PassedCount(limit: int, k: nat, w: Window, t: real)
    requires Faithful(w) && WithinBound(limit, k, w)
    requires Above(w.zset, w.clock - WINDOW_SECONDS) < limit && |w.pending| < k
    ensures InWindow(w.log, t) + InWindow(w.pending + [w.clock], t) <= Bound(limit, k)
  {
    InWindowSnoc(w.pending, w.clock, t);
    if In(w.clock, t) {
      InWindowAtMost(w.log, w.clock - WINDOW_SECONDS, t);
      InWindowAtMost(w.pending, 0.0, t);
    }
  }

  lemma StaysWithinBound(limit: int, k: nat, w: Window, step: Step)
    requires Faithful(w) && WithinBound(limit, k, w) && |Next(limit, w, step).pending| <= k
    ensures WithinBound(limit, k, Next(limit, w, step))
  {
    match step {
      case Tick(_) =>
      case Count =>
        KeptSize(w.zset, w.clock - WINDOW_SECONDS);
        if Above(w.zset, w.clock - WINDOW_SECONDS) < limit {
          forall t ensures InWindow(w.log, t) + InWindow(w.pending + [w.clock], t) <= Bound(limit, k) {
            PassedCount(limit, k, w, t);
          }
        }
      case Add(i) =>
        if i < |w.pending| {
          forall t ensures InWindow(w.log + [w.pending[i]], t) + InWindow(Remove(w.pending, i), t) <= Bound(limit, k) {
            InWindowRemove(w.pending, i, t);
            InWindowSnoc(w.log, w.pending[i], t);
          }
        }
      case Expire =>
    }
  }

  lemma {:induction false} AlwaysFaithful(limit: int, now: real, steps: seq<Step>)
    ensures Faithful(Run(limit, Start(now), steps))
  {
    if steps != [] {
      var n := |steps| - 1;
      AlwaysFaithful(limit, now, steps[..n]);
      StaysFaithful(limit, Run(limit, Start(now), steps[..n]), steps[n]);
    }
  }

  /** In every run, a check is let through exactly if fewer than limit requests were admitted within the last 60
      seconds; it then waits to add the time of its count, and nothing else changes who waits or what was admitted. */
  lemma CountDecides(limit: int, now: real, steps: seq<Step>)
    ensures var w := Run(limit, Start(now), steps);
            var v := Next(limit, w, Count);
            && v.pending == (if Above(w.log, w.clock - 60.0) < limit then w.pending + [w.clock] else w.pending)
            && v.log == w.log && v.clock == w.clock && v.expireAt == w.expireAt
  {
    AlwaysFaithful(limit, now, steps);
    var w := Run(limit, Start(now), steps);
    KeptSize(w.zset, w.clock - WINDOW_SECONDS);
    assert Above(w.zset, w.clock - 60.0) == Above(w.log, w.clock - 60.0);
  }

  /** The key lives for 120 seconds after the last score was added, whatever the clock shows when Redis looks, and
      not longer. */
  lemma KeyLife(limit: int, w: Window, i: nat, later: real)
    requires i < |w.pending| && later >= w.clock
    ensures var added := Next(limit, w, Add(i));
            var v := Next(limit, Next(limit, added, Tick(later)), Expire);
            v.zset == if later < w.clock + 120.0 then w.zset + [w.pending[i]] else []
  {
  }

  lemma {:induction false} RunKeeps(limit: int, k: nat, now: real, steps: seq<Step>)
    requires AtMost(k, limit, Start(now), steps)
    ensures Faithful(Run(limit, Start(now), steps))
    ensures WithinBound(limit, k, Run(limit, Start(now), steps))
  {
    AlwaysFaithful(limit, now, steps);
    if steps != [] {
      var n := |steps| - 1;
      assert forall m :: 0 <= m <= n ==> steps[..n][..m] == steps[..m];
      assert steps[..n + 1] == steps;
      RunKeeps(limit, k, now, steps[..n]);
      StaysWithinBound(limit, k, Run(limit, Start(now), steps[..n]), steps[n]);
    }
  }

  /** Safety over every run: no window of 60 seconds holds more than limit + k - 1 admitted requests;
      with checks one at a time (k = 1), no more than the limit; with a limit of 0 or less, none. */
  lemma SlidingWindow(limit: int, k: nat, now: real, steps: seq<Step>, t: real)
    requires AtMost(k, limit, Start(now), steps)
    ensures InWindow(Run(limit, Start(now), steps).log, t) <= Bound(limit, k)
  {
    RunKeeps(limit, k, now, steps);
    var w := Run(limit, Start(now), steps);
    assert InWindow(w.log, t) + InWindow(w.pending, t) <= Bound(limit, k);
  }

  /** The key's expiry never drops a score that a count, then or later, would have kept. */
  lemma ExpiryIsHarmless(limit: int, k: nat, now: real, steps: seq<Step>, later: real)
    requires AtMost(k, limit, Start(now), steps)
    requires var w := Run(limit, Start(now), steps); w.expireAt <= w.clock <= later
    ensures Kept(Run(limit, Start(now), steps).zset, later - 60.0) == []
  {
    RunKeeps(limit, k, now, steps);
    var z := Run(limit, Start(now), steps).zset;
    KeptSize(z, later - WINDOW_SECONDS);
    AboveExtremes(z, later - WINDOW_SECONDS);
  }

  // The bound is reached: with k checks in flight the limit is exceeded by k - 1.

  /** n times the two pipelines one after the other, then m counts, then m adds. */
  function Serial(n: nat): seq<Step> {
    if n == 0 then [] else Serial(n - 1) + [Count, Add(0)]
  }

  function Repeat(step: Step, m: nat): seq<Step> {
    if m == 0 then [] else Repeat(step, m - 1) + [step]
  }

  lemma AtMostSnoc(k: nat, limit: int, w: Window, steps: seq<Step>, step: Step)
    requires AtMost(k, limit, w, steps) && |Run(limit, w, steps + [step]).pending| <= k
    ensures AtMost(k, limit, w, steps + [step])
  {
    var all := steps + [step];
    forall n | 0 <= n <= |all| ensures |Run(limit, w, all[..n]).pending| <= k {
      if n == |all| { assert all[..n] == all; } else { assert all[..n] == steps[..n]; }
    }
  }

  /** All at time 0: `added` requests are in, `waiting` checks are between their pipelines. */
  ghost predicate AtZero(w: Window, added: nat, waiting: nat) {
    && w.clock == 0.0 && |w.zset| == added && |w.pending| == waiting && |w.log| == added
    && AllZero(w.zset) && AllZero(w.pending) && AllZero(w.log)
  }

  ghost predicate AllZero(s: seq<real>) {
    forall i :: 0 <= i < |s| ==> s[i] == 0.0
  }

  lemma {:induction false} KeptZeros(s: seq<real>)
    requires AllZero(s)
    ensures Kept(s, 0.0 - WINDOW_SECONDS) == s && InWindow(s, 0.0) == |s|
  {
    if s != [] {
      KeptZeros(s[..|s| - 1]);
    }
  }

  lemma RunSnoc(limit: int, w: Window, steps: seq<Step>, step: Step)
    ensures Run(limit, w, steps + [step]) == Next(limit, Run(limit, w, steps), step)
  {
    assert (steps + [step])[..|steps|] == steps;
  }

  lemma CountAtZero(limit: int, w: Window, added: nat, waiting: nat)
    requires AtZero(w, added, waiting) && added < limit
    ensures AtZero(Next(limit, w, Count), added, waiting + 1)
  {
    KeptZeros(w.zset);
  }

  lemma AddAtZero(limit: int, w: Window, added: nat, waiting: nat)
    requires AtZero(w, added, waiting) && waiting > 0
    ensures AtZero(Next(limit, w, Add(0)), added + 1, waiting - 1)
  {
  }

  lemma {:induction false} SerialRun(limit: int, n: nat)
    requires n <= limit
    ensures AtZero(Run(limit, Start(0.0), Serial(n)), n, 0) && AtMost(1, limit, Start(0.0), Serial(n))
  {
    if n > 0 {
      SerialRun(limit, n - 1);
      var s0 := Serial(n - 1);
      var s1 := s0 + [Count];
      assert Serial(n) == s1 + [Add(0)];
      RunSnoc(limit, Start(0.0), s0, Count);
      CountAtZero(limit, Run(limit, Start(0.0), s0), n - 1, 0);
      AtMostSnoc(1, limit, Start(0.0), s0, Count);
      RunSnoc(limit, Start(0.0), s1, Add(0));
      AddAtZero(limit, Run(limit, Start(0.0), s1), n - 1, 1);
      AtMostSnoc(1, limit, Start(0.0), s1, Add(0));
    }
  }

  lemma {:induction false} CountsRun(k: nat, limit: int, base: seq<Step>, m: nat)
    requires 0 < limit && m <= k
    requires AtZero(Run(limit, Start(0.0), base), (limit - 1) as nat, 0) && AtMost(k, limit, Start(0.0), base)
    ensures AtZero(Run(limit, Start(0.0), base + Repeat(Count, m)), (limit - 1) as nat, m)
    ensures AtMost(k, limit, Start(0.0), base + Repeat(Count, m))
  {
    if m == 0 {
      assert base + Repeat(Count, 0) == base;
    } else {
      CountsRun(k, limit, base, m - 1);
      var steps := base + Repeat(Count, m - 1);
      assert base + Repeat(Count, m) == steps + [Count];
      RunSnoc(limit, Start(0.0), steps, Count);
      CountAtZero(limit, Run(limit, Start(0.0), steps), (limit - 1) as nat, m - 1);
      AtMostSnoc(k, limit, Start(0.0), steps, Count);
    }
  }

  lemma {:induction false} AddsRun(k: nat, limit: int, base: seq<Step>, added: nat, m: nat, j: nat)
    requires j <= m <= k
    requires AtZero(Run(limit, Start(0.0), base), added, m) && AtMost(k, limit, Start(0.0), base)
    ensures AtZero(Run(limit, Start(0.0), base + Repeat(Add(0), j)), added + j, m - j)
    ensures AtMost(k, limit, Start(0.0), base + Repeat(Add(0), j))
  {
    if j == 0 {
      assert base + Repeat(Add(0), 0) == base;
    } else {
      AddsRun(k, limit, base, added, m, j - 1);
      var steps := base + Repeat(Add(0), j - 1);
      assert base + Repeat(Add(0), j) == steps + [Add(0)];
      RunSnoc(limit, Start(0.0), steps, Add(0));
      AddAtZero(limit, Run(limit, Start(0.0), steps), added + (j - 1), m - (j - 1));
      AtMostSnoc(k, limit, Start(0.0), steps, Add(0));
    }
  }

  /** For every limit and every k there is a run with k checks in flight that admits limit + k - 1 requests in
      one window: the bound of SlidingWindow is exact. */
  lemma Overshoot(limit: nat, k: nat) returns (steps: seq<Step>)
    requires limit >= 1 && k >= 1
    ensures AtMost(k, limit, Start(0.0), steps)
    ensures InWindow(Run(limit, Start(0.0), steps).log, 0.0) == limit + k - 1
  {
    SerialRun(limit, limit - 1);
    var a := Serial(limit - 1);
    CountsRun(k, limit, a, k);
    var b := a + Repeat(Count, k);
    AddsRun(k, limit, b, limit - 1, k, k);
    steps := b + Repeat(Add(0), k);
    KeptZeros(Run(limit, Start(0.0), steps).log);
  }

  ghost predicate KeepsTheLimit(limit: int, k: nat) {
    forall now: real, steps: seq<Step>, t: real ::
      AtMost(k, limit, Start(now), steps) ==> InWindow(Run(limit, Start(now), steps).log, t) <= limit
  }

  /** `requests/minute` is kept in every run exactly when no two checks overlap. */
  lemma LimitHoldsIffSerial(limit: int, k: nat)
    requires limit >= 1
    ensures KeepsTheLimit(limit, k) <==> k <= 1
  {
    if k <= 1 {
      forall now: real, steps: seq<Step>, t: real | AtMost(k, limit, Start(now), steps)
        ensures InWindow(Run(limit, Start(now), steps).log, t) <= limit
      {
        SlidingWindow(limit, k, now, steps, t);
      }
    } else {
      var steps := Overshoot(limit, k);
    }
  }

  // Retry-After, section 10.2.3 of RFC 9110.

  function Oldest(z: seq<real>): (x: real)
    requires z != []
    ensures exists i :: 0 <= i < |z| && z[i] == x
    ensures forall i :: 0 <= i < |z| ==> x <= z[i]
  {
    var x := z[|z| - 1];
    if |z| == 1 then x
    else
      var y := Oldest(z[..|z| - 1]);
      if y < x then y else x
  }

  /** Python's `int` on a float. */
  function Truncate(x: real): int {
    if x >= 0.0 then x.Floor else -((-x).Floor)
  }

  /** The wait told to a rejected caller, from the scores left in the set. */
  function RetryAfter(z: seq<real>, now: real): int {
    var oldest := if z == [] then now else Oldest(z);
    var wait := Truncate(oldest + WINDOW_SECONDS - now) + 1;
    if wait > 1 then wait else 1
  }

  /** The time until the oldest score leaves the window, and what is announced for it. */
  lemma RetryAfterTight(z: seq<real>, now: real)
    requires AllAbove(z, now - 60.0)
    ensures z != [] ==>
              var x := Oldest(z) + 60.0 - now;
              0.0 < x < RetryAfter(z, now) as real <= x + 1.0
    ensures z == [] ==> RetryAfter(z, now) == 61
  {
    if z != [] {
      var x := Oldest(z) + WINDOW_SECONDS - now;
      assert x.Floor as real <= x < x.Floor as real + 1.0;
    }
  }

  /** No request is admitted while these steps run: time passes, keys expire, checks are turned away. */
  ghost predicate Quiet(limit: int, w: Window, steps: seq<Step>) {
    AtMost(0, limit, w, steps)
  }

  lemma {:induction false} QuietRun(limit: int, w: Window, steps: seq<Step>)
    requires Faithful(w) && Quiet(limit, w, steps)
    ensures Faithful(Run(limit, w, steps)) && Run(limit, w, steps).log == w.log && Run(limit, w, steps).pending == []
  {
    assert steps[..|steps|] == steps;
    if steps != [] {
      var n := |steps| - 1;
      assert forall m :: 0 <= m <= n ==> steps[..n][..m] == steps[..m];
      QuietRun(limit, w, steps[..n]);
      StaysFaithful(limit, Run(limit, w, steps[..n]), steps[n]);
    }
  }

  /** A check rejected in state w: one that comes before the oldest score leaves the window is rejected
      again, and one that waits as told passes. */
  ghost predicate FreedWhenTold(limit: int, w: Window, later: Window) {
    var z := Kept(w.zset, w.clock - 60.0);
    var passes := |Kept(later.zset, later.clock - 60.0)| < limit;
    && z != []
    && (later.clock >= w.clock + RetryAfter(z, w.clock) as real ==> passes)
    && (w.clock <= later.clock < Oldest(z) + 60.0 ==> !passes)
  }

  /** Serial runs: after a rejection, with no admission in between, the announced wait is enough, and
      (RetryAfterTight) at most a second too long. */
  lemma RetryAfterSound(limit: int, now: real, before: seq<Step>, w: Window, steps: seq<Step>)
    requires limit >= 1 && AtMost(1, limit, Start(now), before) && w == Run(limit, Start(now), before)
    requires |Kept(w.zset, w.clock - 60.0)| >= limit && Quiet(limit, w, steps)
    ensures FreedWhenTold(limit, w, Run(limit, w, steps))
  {
    RunKeeps(limit, 1, now, before);
    QuietRun(limit, w, steps);
    FreedAt(limit, w, Run(limit, w, steps));
  }

  lemma FreedAt(limit: int, w: Window, later: Window)
    requires Faithful(w) && Faithful(later) && later.log == w.log && WithinBound(limit, 1, w) && limit >= 1
    requires |Kept(w.zset, w.clock - WINDOW_SECONDS)| >= limit
    ensures FreedWhenTold(limit, w, later)
  {
    var lo := w.clock - WINDOW_SECONDS;
    var z := Kept(w.zset, lo);
    KeptSize(w.zset, lo);
    KeptSize(later.zset, later.clock - WINDOW_SECONDS);
    RetryAfterTight(z, w.clock);
    if later.clock >= w.clock + RetryAfter(z, w.clock) as real {
      FreedLater(limit, w, later, z);
    } else if w.clock <= later.clock < Oldest(z) + WINDOW_SECONDS {
      KeptAbove(w.zset, lo, later.clock - WINDOW_SECONDS);
      AboveExtremes(z, later.clock - WINDOW_SECONDS);
    }
  }

  /** Once the oldest score has left, fewer than limit scores are in the window. */
  lemma FreedLater(limit: int, w: Window, later: Window, z: seq<real>)
    requires Faithful(w) && Faithful(later) && later.log == w.log && WithinBound(limit, 1, w) && limit >= 1
    requires z == Kept(w.zset, w.clock - WINDOW_SECONDS) && z != [] && AllAbove(z, w.clock - WINDOW_SECONDS)
    requires later.clock - WINDOW_SECONDS >= Oldest(z)
    ensures Above(later.zset, later.clock - WINDOW_SECONDS) < limit
  {
    var lo := w.clock - WINDOW_SECONDS;
    AboveAntitone(w.log, Oldest(z), later.clock - WINDOW_SECONDS);
    KeptAbove(w.zset, lo, Oldest(z));
    AboveOldest(z);
    LogWithin(limit, w);
    KeptSize(w.zset, lo);
  }

  lemma LogWithin(limit: int, w: Window)
    requires Faithful(w) && WithinBound(limit, 1, w) && limit >= 1
    ensures Above(w.zset, w.clock - WINDOW_SECONDS) <= limit
  {
    AboveExtremes(w.log, w.clock - WINDOW_SECONDS);
    assert InWindow(w.log, w.clock) + InWindow(w.pending, w.clock) <= Bound(limit, 1);
  }

  lemma {:induction false} AboveOldest(z: seq<real>)
    requires z != []
    ensures Above(z, Oldest(z)) < |z|
  {
    var n := |z| - 1;
    AboveLength(z[..n], Oldest(z));
    if |z| > 1 {
      AboveOldest(z[..n]);
    }
  }

  lemma {:induction false} AboveLength(s: seq<real>, lo: real)
    ensures Above(s, lo) <= |s|
  {
    if s != [] {
      AboveLength(s[..|s| - 1], lo);
    }
  }
}
