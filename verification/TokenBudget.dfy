/**
 The tokens-per-day budget of one tenant: a counter for each UTC day, checked before a request and
 increased after it, with a key that expires after 48 hours.
 */
module TokenBudget {
  const DAY := 86400.0
  const KEY_TTL := 172800.0

  datatype Counter = Counter(value: nat, expireAt: real)

  /** `counters` is what Redis holds; `spent` all tokens ever recorded under a day's key; `working` the
      requests admitted whose usage is not yet recorded. */
  datatype Tokens = Tokens(clock: real, counters: map<int, Counter>, working: nat, spent: map<int, nat>)

  /** Check and Record are the limiter's; Abandon is a request that ends without recording. */
  datatype Step = Tick(now: real) | Check | Record(tokens: int) | Abandon | Expire(day: int)

  function Day(t: real): int {
    (t / DAY).Floor
  }

  /** The budget is exhausted: only a counter that exists can refuse. */
  predicate Refuses(limit: int, t: Tokens) {
    Day(t.clock) in t.counters && t.counters[Day(t.clock)].value >= limit
  }

  function Next(limit: int, t: Tokens, step: Step): Tokens {
    match step
    case Tick(now) => if now >= t.clock then t.(clock := now) else t
    case Check => if Refuses(limit, t) then t else t.(working := t.working + 1)
    case Record(n) =>
      var working := if t.working > 0 then t.working - 1 else 0;
      if n <= 0 then t.(working := working)
      else
        var d := Day(t.clock);
        var used := if d in t.counters then t.counters[d].value else 0;
        t.(counters := t.counters[d := Counter(used + n, t.clock + KEY_TTL)],
           working := working,
           spent := t.spent[d := Spent(t.spent, d) + n])
    case Abandon => if t.working == 0 then t else t.(working := t.working - 1)
    case Expire(d) => if d in t.counters && t.clock >= t.counters[d].expireAt then t.(counters := t.counters - {d}) else t
  }

  function Spent(spent: map<int, nat>, d: int): nat {
    if d in spent then spent[d] else 0
  }

  function Run(limit: int, t: Tokens, steps: seq<Step>): Tokens {
    if steps == [] then t else Next(limit, Run(limit, t, steps[..|steps| - 1]), steps[|steps| - 1])
  }

  /** At most k requests at work at any time; only they record, and at most m tokens each. */
  ghost predicate Disciplined(k: nat, m: nat, limit: int, t: Tokens, steps: seq<Step>) {
    && (forall n :: 0 <= n <= |steps| ==> Run(limit, t, steps[..n]).working <= k)
    && (forall i :: 0 <= i < |steps| && steps[i].Record? ==> steps[i].tokens <= m && Run(limit, t, steps[..i]).working > 0)
  }

  function Start(now: real): Tokens {
    Tokens(now, map[], 0, map[])
  }

  function Bound(limit: int, k: nat, m: nat): int {
    (if limit > 1 then limit - 1 else 0) + k * m
  }

  lemma DayOf(t: real)
    ensures Day(t) as real * 86400.0 <= t < (Day(t) + 1) as real * 86400.0
  {
    var q := t / DAY;
    assert q * DAY == t;
    assert q.Floor as real <= q < q.Floor as real + 1.0;
  }

  lemma DayMonotone(t: real, u: real)
    requires t <= u
    ensures Day(t) <= Day(u)
  {
    assert t / DAY <= u / DAY;
  }

  /** Redis still holds, unexpired, everything recorded under today's key. */
  ghost predicate Faithful(t: Tokens) {
    var today := Day(t.clock);
    && (forall d :: d in t.counters ==>
          d <= today && t.counters[d].value > 0 && d as real * DAY + KEY_TTL <= t.counters[d].expireAt)
    && Spent(t.spent, today) == (if today in t.counters then t.counters[today].value else 0)
    && (forall d :: d in t.spent ==> d <= today)
  }

  ghost predicate WithinBound(bound: int, m: nat, t: Tokens) {
    && (forall d :: Spent(t.spent, d) <= bound)
    && Spent(t.spent, Day(t.clock)) + t.working * m <= bound
  }

  lemma StaysFaithful(limit: int, t: Tokens, step: Step)
    requires Faithful(t)
    ensures Faithful(Next(limit, t, step))
  {
    DayOf(t.clock);
    match step {
      case Tick(now) => if now >= t.clock { DayMonotone(t.clock, now); }
      case Check =>
      case Record(n) =>
      case Abandon =>
      case Expire(d) =>
        assert (Day(t.clock) + 1) as real * DAY == Day(t.clock) as real * DAY + DAY;
    }
  }

  lemma Scale(a: nat, b: nat, m: nat)
    requires a <= b
    ensures a * m <= b * m && (a + 1) * m == a * m + m
  {
    assert (b - a) * m >= 0;
  }

  lemma StaysWithinBound(limit: int, k: nat, m: nat, t: Tokens, step: Step)
    requires Faithful(t) && WithinBound(Bound(limit, k, m), m, t) && t.working <= k
    requires Next(limit, t, step).working <= k && (step.Record? ==> step.tokens <= m && t.working > 0)
    ensures WithinBound(Bound(limit, k, m), m, Next(limit, t, step))
  {
    var u := Next(limit, t, step);
    Scale(u.working, k, m);
    match step {
      case Tick(now) =>
        if now >= t.clock { DayMonotone(t.clock, now); }
      case Check =>
      case Record(n) =>
        if t.working > 0 {
          Scale(t.working - 1, t.working, m);
          Scale(0, t.working - 1, m);
          assert forall d :: d != Day(t.clock) ==> Spent(u.spent, d) == Spent(t.spent, d);
        }
      case Abandon => if t.working > 0 { Scale(t.working - 1, t.working, m); }
      case Expire(d) =>
    }
  }

  lemma {:induction false} AlwaysFaithful(limit: int, now: real, steps: seq<Step>)
    ensures Faithful(Run(limit, Start(now), steps))
  {
    if steps != [] {
      var n := |steps| - 1;
      AlwaysFaithful(limit, now, steps[..n]);
      StaysFaithful(limit, Run(limit, Start(now), steps[..n]), steps[n]);
    }
  }

  lemma {:induction false} RunKeeps(limit: int, k: nat, m: nat, now: real, steps: seq<Step>)
    requires Disciplined(k, m, limit, Start(now), steps)
    ensures var t := Run(limit, Start(now), steps);
            WithinBound(Bound(limit, k, m), m, t) && t.working <= k
  {
    assert steps[..|steps|] == steps;
    if steps == [] {
      Scale(0, k, m);
    } else {
      var n := |steps| - 1;
      assert forall j :: 0 <= j <= n ==> steps[..n][..j] == steps[..j];
      RunKeeps(limit, k, m, now, steps[..n]);
      AlwaysFaithful(limit, now, steps[..n]);
      StaysWithinBound(limit, k, m, Run(limit, Start(now), steps[..n]), steps[n]);
    }
  }

  /** Safety over every run, across midnights and expiries: the tokens recorded under any one day's key
      never exceed max(limit - 1, 0) + k * m. */
  lemma DailyBudget(limit: int, k: nat, m: nat, now: real, steps: seq<Step>, d: int)
    requires Disciplined(k, m, limit, Start(now), steps)
    ensures Spent(Run(limit, Start(now), steps).spent, d) <= Bound(limit, k, m)
  {
    RunKeeps(limit, k, m, now, steps);
  }

  /** The 48-hour expiry is invisible to checks: in every run, whoever records, a check is refused exactly when
      something was recorded today and the day's total has reached the limit. In particular a limit of 0
      refuses nothing before the first tokens of the day. */
  lemma RefusesOnTotal(limit: int, now: real, steps: seq<Step>)
    ensures var t := Run(limit, Start(now), steps);
            var total := Spent(t.spent, Day(t.clock));
            Refuses(limit, t) <==> total > 0 && total >= limit
  {
    AlwaysFaithful(limit, now, steps);
  }

  /** The day's key lives for 48 hours after the last tokens recorded under it, and not longer. */
  lemma KeyLife(limit: int, t: Tokens, n: int, later: real)
    requires n > 0 && later >= t.clock
    ensures var d := Day(t.clock);
            var recorded := Next(limit, t, Record(n));
            var v := Next(limit, Next(limit, recorded, Tick(later)), Expire(d));
            && (d in v.counters <==> later < t.clock + 172800.0)
            && (d in v.counters ==> v.counters[d].value == n + if d in t.counters then t.counters[d].value else 0)
  {
  }

  // The bound is reached.

  /** On day 0, so many tokens recorded, so many requests at work. */
  ghost predicate OnDayZero(t: Tokens, total: nat, working: nat) {
    && t.clock == 0.0 && t.working == working && Spent(t.spent, 0) == total
    && (if total == 0 then 0 !in t.counters else 0 in t.counters && t.counters[0].value == total)
  }

  lemma RunSnoc(limit: int, t: Tokens, steps: seq<Step>, step: Step)
    ensures Run(limit, t, steps + [step]) == Next(limit, Run(limit, t, steps), step)
  {
    assert (steps + [step])[..|steps|] == steps;
  }

  lemma DisciplinedSnoc(k: nat, m: nat, limit: int, t: Tokens, steps: seq<Step>, step: Step)
    requires Disciplined(k, m, limit, t, steps) && Next(limit, Run(limit, t, steps), step).working <= k
    requires step.Record? ==> step.tokens <= m && Run(limit, t, steps).working > 0
    ensures Disciplined(k, m, limit, t, steps + [step])
  {
    var all := steps + [step];
    RunSnoc(limit, t, steps, step);
    forall n | 0 <= n <= |all| ensures |all[..n]| == n && Run(limit, t, all[..n]).working <= k {
      if n == |all| { assert all[..n] == all; } else { assert all[..n] == steps[..n]; }
    }
    forall i | 0 <= i < |all| && all[i].Record? ensures all[i].tokens <= m && Run(limit, t, all[..i]).working > 0 {
      assert all[..i] == steps[..i] && steps[..|steps|] == steps;
    }
  }

  /** A run that got to this state on day 0. */
  ghost predicate Got(k: nat, m: nat, limit: int, steps: seq<Step>, total: nat, working: nat) {
    && Disciplined(k, m, limit, Start(0.0), steps)
    && OnDayZero(Run(limit, Start(0.0), steps), total, working)
  }

  lemma CheckPasses(k: nat, m: nat, limit: int, steps: seq<Step>, total: nat, working: nat)
    requires Got(k, m, limit, steps, total, working) && working < k && (total < limit || total == 0)
    ensures Got(k, m, limit, steps + [Check], total, working + 1)
  {
    DayIs(0.0, 0);
    RunSnoc(limit, Start(0.0), steps, Check);
    DisciplinedSnoc(k, m, limit, Start(0.0), steps, Check);
  }

  lemma RecordAdds(k: nat, m: nat, limit: int, steps: seq<Step>, total: nat, working: nat, tokens: nat)
    requires Got(k, m, limit, steps, total, working) && working > 0 && 0 < tokens <= m
    ensures Got(k, m, limit, steps + [Record(tokens)], total + tokens, working - 1)
  {
    DayIs(0.0, 0);
    RunSnoc(limit, Start(0.0), steps, Record(tokens));
    assert Run(limit, Start(0.0), steps).working <= k by { assert steps[..|steps|] == steps; }
    DisciplinedSnoc(k, m, limit, Start(0.0), steps, Record(tokens));
  }

  /** One request after the other, a token each. */
  lemma {:induction false} SpendSlowly(k: nat, m: nat, limit: int, n: nat) returns (steps: seq<Step>)
    requires k >= 1 && m >= 1 && (n == 0 || n < limit)
    ensures Got(k, m, limit, steps, n, 0)
  {
    steps := [];
    if n > 0 {
      steps := SpendSlowly(k, m, limit, n - 1);
      CheckPasses(k, m, limit, steps, n - 1, 0);
      RecordAdds(k, m, limit, steps + [Check], n - 1, 1, 1);
      steps := steps + [Check] + [Record(1)];
    }
  }

  lemma {:induction false} AllCheck(k: nat, m: nat, limit: int, before: seq<Step>, total: nat, j: nat)
    returns (steps: seq<Step>)
    requires Got(k, m, limit, before, total, 0) && j <= k && (total < limit || total == 0)
    ensures Got(k, m, limit, steps, total, j)
  {
    steps := before;
    if j > 0 {
      steps := AllCheck(k, m, limit, before, total, j - 1);
      CheckPasses(k, m, limit, steps, total, j - 1);
      steps := steps + [Check];
    }
  }

  lemma {:induction false} AllRecord(k: nat, m: nat, limit: int, before: seq<Step>, total: nat, working: nat)
    returns (steps: seq<Step>)
    requires Got(k, m, limit, before, total, working) && m >= 1
    ensures Got(k, m, limit, steps, total + working * m, 0)
    decreases working
  {
    steps := before;
    if working > 0 {
      RecordAdds(k, m, limit, before, total, working, m);
      steps := AllRecord(k, m, limit, before + [Record(m)], total + m, working - 1);
      Scale(working - 1, working, m);
    }
  }

  /** For every limit, k and m there is a run in which k requests, all checked before any records, take the
      day's total to the bound of DailyBudget. */
  lemma BudgetOvershoot(limit: int, k: nat, m: nat) returns (steps: seq<Step>)
    requires k >= 1 && m >= 1
    ensures Disciplined(k, m, limit, Start(0.0), steps)
    ensures Spent(Run(limit, Start(0.0), steps).spent, 0) == Bound(limit, k, m)
  {
    var below: nat := if limit > 1 then limit - 1 else 0;
    steps := SpendSlowly(k, m, limit, below);
    steps := AllCheck(k, m, limit, steps, below, k);
    steps := AllRecord(k, m, limit, steps, below, k);
  }

  ghost predicate KeepsTheBudget(limit: int, k: nat, m: nat) {
    forall now: real, steps: seq<Step>, d: int ::
      Disciplined(k, m, limit, Start(now), steps) ==> Spent(Run(limit, Start(now), steps).spent, d) <= limit
  }

  lemma AtMostOne(k: nat, m: nat)
    ensures k * m <= 1 <==> k == 0 || m == 0 || (k == 1 && m == 1)
  {
    if k >= 1 && m >= 2 {
      Scale(1, k, m);
    } else if k >= 2 && m == 1 {
      assert k * m == k;
    }
  }

  /** The daily limit itself is kept in every run exactly if all requests at once can record no more than one token. */
  lemma BudgetHoldsIff(limit: int, k: nat, m: nat)
    requires limit >= 1
    ensures KeepsTheBudget(limit, k, m) <==> k * m <= 1
  {
    AtMostOne(k, m);
    if k * m <= 1 {
      forall now: real, steps: seq<Step>, d: int | Disciplined(k, m, limit, Start(now), steps)
        ensures Spent(Run(limit, Start(now), steps).spent, d) <= limit
      {
        DailyBudget(limit, k, m, now, steps, d);
      }
    } else {
      var steps := BudgetOvershoot(limit, k, m);
    }
  }

  /** `_seconds_until_midnight`: to 23:59:59 with today's microseconds kept, plus one. */
  function SecondsUntilMidnight(now: real): int {
    var intoDay := now - Day(now) as real * DAY;
    var wait := 86399 - intoDay.Floor + 1;
    if wait > 1 then wait else 1
  }

  /** The wait lands in the next UTC day, less than one second after midnight. */
  lemma WaitLandsTomorrow(now: real)
    ensures var back := now + SecondsUntilMidnight(now) as real;
            Day(back) == Day(now) + 1 && 0.0 <= back - Day(back) as real * 86400.0 < 1.0
  {
    DayOf(now);
    var d := Day(now);
    var intoDay := now - d as real * DAY;
    assert 0.0 <= intoDay < DAY;
    var f := intoDay.Floor;
    assert f as real <= intoDay < f as real + 1.0;
    var later := now + SecondsUntilMidnight(now) as real;
    assert SecondsUntilMidnight(now) == 86400 - f;
    assert (d + 1) as real * DAY == d as real * DAY + DAY;
    assert later == (d + 1) as real * DAY + (intoDay - f as real);
    DayIs(later, d + 1);
  }

  lemma DayIs(t: real, d: int)
    requires d as real * DAY <= t < (d + 1) as real * DAY
    ensures Day(t) == d
  {
    DayOf(t);
    assert (Day(t) as real) < (d + 1) as real && (d as real) < (Day(t) + 1) as real;
  }
}
