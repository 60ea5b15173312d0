/**
 `TenantRateLimiter` for one tenant, over what Redis holds under the tenant's keys. Each small method
 below is one atomic step of the protocol; in `CheckRequests` and `Check` other callers act in between.
 */
module RateLimiting {
  import opened Prelude
  import RW = RequestWindow
  import TB = TokenBudget

  datatype Limits = Limits(rpm: int, tpd: int)

  datatype Verdict = Allowed | RequestsExceeded(retryAfter: int) | TokensExceeded(retryAfter: int)

  /** All of a tenant's keys, with what has happened to them. */
  datatype Keys = Keys(requests: RW.Window, tokens: TB.Tokens)

  /** A step that some caller, or Redis itself, takes at an instant. */
  datatype Act =
    | Count(now: real)
    | Add(i: nat, score: real, now: real)
    | CheckBudget(now: real)
    | Record(tokens: int, now: real)
    | Abandon(now: real)
    | ExpireRequests(now: real)
    | ExpireTokens(day: int, now: real)

  function Tick(s: Keys, now: real): Keys {
    Keys(RW.Next(0, s.requests, RW.Tick(now)), TB.Next(0, s.tokens, TB.Tick(now)))
  }

  function Next(limits: Limits, s: Keys, a: Act): Keys {
    var t := Tick(s, a.now);
    match a
    case Count(_) => t.(requests := RW.Next(limits.rpm, t.requests, RW.Count))
    case Add(i, _, _) => t.(requests := RW.Next(limits.rpm, t.requests, RW.Add(i)))
    case ExpireRequests(_) => t.(requests := RW.Next(limits.rpm, t.requests, RW.Expire))
    case CheckBudget(_) => t.(tokens := TB.Next(limits.tpd, t.tokens, TB.Check))
    case Record(n, _) => t.(tokens := TB.Next(limits.tpd, t.tokens, TB.Record(n)))
    case Abandon(_) => t.(tokens := TB.Next(limits.tpd, t.tokens, TB.Abandon))
    case ExpireTokens(d, _) => t.(tokens := TB.Next(limits.tpd, t.tokens, TB.Expire(d)))
  }

  function After(limits: Limits, s: Keys, acts: seq<Act>): Keys {
    if acts == [] then s else Next(limits, After(limits, s, acts[..|acts| - 1]), acts[|acts| - 1])
  }

  /** The clock does not go back, and only checks that wait add their score. */
  predicate Possible(s: Keys, a: Act) {
    && s.requests.clock <= a.now
    && (a.Add? ==> a.i < |s.requests.pending| && s.requests.pending[a.i] == a.score)
  }

  ghost predicate PossibleRun(limits: Limits, s: Keys, acts: seq<Act>) {
    acts == [] ||
    var n := |acts| - 1;
    PossibleRun(limits, s, acts[..n]) && Possible(After(limits, s, acts[..n]), acts[n])
  }

  lemma AfterSnoc(limits: Limits, s: Keys, acts: seq<Act>, a: Act)
    ensures After(limits, s, acts + [a]) == Next(limits, After(limits, s, acts), a)
  {
    assert (acts + [a])[..|acts|] == acts;
  }

  function NextBy(limits: Limits): (Keys, Act) -> Keys {
    (s: Keys, a: Act) => Next(limits, s, a)
  }

  lemma {:induction false} AfterIsFold(limits: Limits, s: Keys, acts: seq<Act>)
    ensures After(limits, s, acts) == Fold(NextBy(limits), s, acts)
  {
    if acts != [] {
      AfterIsFold(limits, s, acts[..|acts| - 1]);
    }
  }

  lemma AfterAppend(limits: Limits, s: Keys, a: seq<Act>, b: seq<Act>)
    ensures After(limits, s, a + b) == After(limits, After(limits, s, a), b)
  {
    AfterIsFold(limits, s, a + b);
    AfterIsFold(limits, s, a);
    AfterIsFold(limits, After(limits, s, a), b);
    FoldAppend(NextBy(limits), s, a, b);
  }

  class TenantRateLimiter {
    var zset: seq<real>
    var expireAt: real
    var counters: map<int, TB.Counter>
    ghost var clock: real
    ghost var pending: seq<real>
    ghost var log: seq<real>
    ghost var working: nat
    ghost var spent: map<int, nat>

    ghost function State(): Keys
      reads this
    {
      Keys(RW.Window(clock, zset, expireAt, pending, log), TB.Tokens(clock, counters, working, spent))
    }

    constructor (now: real)
      ensures State() == Keys(RW.Start(now), TB.Start(now))
    {
      zset, expireAt, counters := [], now, map[];
      clock, pending, log, working, spent := now, [], [], 0, map[];
    }

    /** First pipeline of `_check_requests`, at the clock reading that precedes it: prune and count. */
    method CountRequests(limits: Limits, now: real) returns (passes: bool)
      requires now >= clock
      modifies `zset, `clock, `pending
      ensures State() == Next(limits, old(State()), Count(now))
      ensures zset == RW.Kept(old(zset), now - 60.0) && clock == now
      ensures passes <==> |zset| < limits.rpm
      ensures pending == if passes then old(pending) + [now] else old(pending)
    {
      clock := now;
      zset := RW.Kept(zset, now - RW.WINDOW_SECONDS);
      var current := |zset|;
      passes := current < limits.rpm;
      if passes {
        pending := pending + [now];
      }
    }

    /** What a rejected caller is told, after asking for the oldest score. */
    method RejectionWait(now: real) returns (retryAfter: int)
      ensures retryAfter == RW.RetryAfter(zset, now)
    {
      var oldest := if zset == [] then now else RW.Oldest(zset);
      retryAfter := RW.Truncate(oldest + RW.WINDOW_SECONDS - now) + 1;
      if retryAfter < 1 {
        retryAfter := 1;
      }
    }

    /** Second pipeline of `_check_requests`: the i-th waiting check adds its score. */
    method AddRequest(ghost limits: Limits, score: real, now: real, ghost i: nat)
      requires now >= clock && i < |pending| && pending[i] == score
      modifies `zset, `expireAt, `clock, `pending, `log
      ensures State() == Next(limits, old(State()), Add(i, score, now))
      ensures log == old(log) + [score] && clock == now
    {
      clock := now;
      zset := zset + [score];
      expireAt := now + RW.KEY_TTL;
      log := log + [score];
      pending := Remove(pending, i);
    }

    /** `_check_tokens`; a refused caller's wait is counted from a later reading of the clock, maybe of another day. */
    method CheckTokens(limits: Limits, now: real, told: real) returns (retryAfter: Option<int>)
      requires clock <= now <= told
      modifies `clock, `working
      ensures State() == Next(limits, old(State()), CheckBudget(now))
      ensures retryAfter.Some? <==> TB.Refuses(limits.tpd, State().tokens)
      ensures retryAfter.Some? ==> retryAfter.value == TB.SecondsUntilMidnight(told)
    {
      clock := now;
      var day := TB.Day(now);
      if day in counters && counters[day].value >= limits.tpd {
        return Some(TB.SecondsUntilMidnight(told));
      }
      working := working + 1;
      return None;
    }

    /** `record_tokens`. */
    method RecordTokens(ghost limits: Limits, tokens: int, now: real)
      requires now >= clock
      modifies `counters, `clock, `working, `spent
      ensures State() == Next(limits, old(State()), Record(tokens, now))
    {
      clock := now;
      working := if working > 0 then working - 1 else 0;
      if tokens <= 0 {
        return;
      }
      var day := TB.Day(now);
      var used := if day in counters then counters[day].value else 0;
      counters := counters[day := TB.Counter(used + tokens, now + TB.KEY_TTL)];
      spent := spent[day := TB.Spent(spent, day) + tokens];
    }

    /** A request that ends without recording, and keys that Redis expires. */
    method Elsewhere(ghost limits: Limits, a: Act)
      requires a.now >= clock && (a.Abandon? || a.ExpireRequests? || a.ExpireTokens?)
      modifies `zset, `counters, `clock, `working
      ensures State() == Next(limits, old(State()), a)
    {
      clock := a.now;
      match a {
        case Abandon(_) =>
          working := if working > 0 then working - 1 else 0;
        case ExpireRequests(now) =>
          if now >= expireAt {
            zset := [];
          }
        case ExpireTokens(day, now) =>
          if day in counters && now >= counters[day].expireAt {
            counters := counters - {day};
          }
      }
    }

    method Take(limits: Limits, a: Act)
      requires Possible(State(), a)
      modifies this
      ensures State() == Next(limits, old(State()), a)
    {
      match a {
        case Count(now) => var _ := CountRequests(limits, now);
        case Add(at, score, now) => AddRequest(limits, score, now, at);
        case CheckBudget(now) => var _ := CheckTokens(limits, now, now);
        case Record(tokens, now) => RecordTokens(limits, tokens, now);
        case _ => Elsewhere(limits, a);
      }
    }

    /** Other callers of the same tenant. */
    method Others(limits: Limits, acts: seq<Act>)
      requires PossibleRun(limits, State(), acts)
      modifies this
      ensures State() == After(limits, old(State()), acts)
    {
      var i := 0;
      while i < |acts|
        invariant 0 <= i <= |acts|
        invariant State() == After(limits, old(State()), acts[..i])
      {
        PossibleAt(limits, old(State()), acts, i);
        assert acts[..i + 1][..i] == acts[..i];
        Take(limits, acts[i]);
        i := i + 1;
      }
      assert acts[..i] == acts;
    }

    /** `_check_requests`, while other callers act between its two pipelines. */
    method CheckRequests(limits: Limits, counted: real, others: seq<Act>, added: real) returns (retryAfter: Option<int>)
      requires counted >= clock
      requires Undisturbed(limits, State(), counted, others, added)
      modifies this
      ensures retryAfter.Some? <==> |RW.Kept(old(zset), counted - 60.0)| >= limits.rpm
      ensures retryAfter.Some? ==> retryAfter.value == RW.RetryAfter(zset, counted)
      ensures State() ==
              After(limits, old(State()), RequestActs(|old(pending)|, counted, others, added, retryAfter.None?))
      ensures retryAfter.None? ==> log != [] && log[|log| - 1] == counted
      ensures clock == if retryAfter.Some? then counted else added
    {
      ghost var s, mine := State(), |pending|;
      RequestRun(limits, s, mine, counted, others, added);
      var passes := CountRequests(limits, counted);
      if !passes {
        var wait := RejectionWait(counted);
        return Some(wait);
      }
      assert pending[mine] == counted;
      AddLater(limits, counted, others, added, mine);
      return None;
    }

    /** Others act, and then the check waiting at i adds its score. */
    method AddLater(limits: Limits, score: real, others: seq<Act>, added: real, ghost i: nat)
      requires i < |pending| && pending[i] == score && OfOthers(i, others) && Follows(limits, State(), others, added)
      modifies this
      ensures State() == Next(limits, After(limits, old(State()), others), Add(Place(i, others), score, added))
      ensures log != [] && log[|log| - 1] == score && clock == added
    {
      StillWaiting(limits, State(), i, others);
      Others(limits, others);
      AddRequest(limits, score, added, Place(i, others));
    }

    /** `check`, while other callers act between any two of its steps. A request that the token budget turns away has
        still used up a slot of the request budget: its score is in the log. */
    method Check(limits: Limits, counted: real, others: seq<Act>, added: real, more: seq<Act>, checked: real,
                 told: real)
      returns (verdict: Verdict)
      requires counted >= clock && checked <= told
      requires Undisturbed(limits, State(), counted, others, added)
      requires Follows(limits, After(limits, State(), RequestActs(|pending|, counted, others, added, true)), more, checked)
      modifies this
      ensures verdict.RequestsExceeded? <==> |RW.Kept(old(zset), counted - 60.0)| >= limits.rpm
      ensures verdict.RequestsExceeded? ==> verdict.retryAfter == RW.RetryAfter(zset, counted)
      ensures !verdict.RequestsExceeded? ==> counted in log
      ensures !verdict.RequestsExceeded? ==> (verdict.TokensExceeded? <==> TB.Refuses(limits.tpd, State().tokens))
      ensures verdict.TokensExceeded? ==> verdict.retryAfter == TB.SecondsUntilMidnight(told)
      ensures State() ==
              After(limits, old(State()),
                    if verdict.RequestsExceeded? then RequestActs(|old(pending)|, counted, others, added, false)
                    else RequestActs(|old(pending)|, counted, others, added, true) + more + [CheckBudget(checked)])
    {
      ghost var s, acts := State(), RequestActs(|pending|, counted, others, added, true);
      var wait := CheckRequests(limits, counted, others, added);
      if wait.Some? {
        return RequestsExceeded(wait.value);
      }
      ghost var afterRequests := State();
      Others(limits, more);
      LogGrows(limits, afterRequests, more, counted);
      wait := CheckTokens(limits, checked, told);
      AfterAppend(limits, s, acts, more);
      AfterSnoc(limits, s, acts + more, CheckBudget(checked));
      return if wait.Some? then TokensExceeded(wait.value) else Allowed;
    }
  }

  // One check among others.

  /** Where the check waiting at i stands after these acts of others. */
  function Place(i: nat, acts: seq<Act>): nat {
    if acts == [] then i
    else
      var n := |acts| - 1;
      var at := Place(i, acts[..n]);
      if acts[n].Add? && acts[n].i < at then at - 1 else at
  }

  /** None of the acts adds the score of the check waiting at i. */
  ghost predicate OfOthers(i: nat, acts: seq<Act>) {
    acts == [] ||
    var n := |acts| - 1;
    OfOthers(i, acts[..n]) && !(acts[n].Add? && acts[n].i == Place(i, acts[..n]))
  }

  /** Others act, and then the clock reads `now`. */
  ghost predicate Follows(limits: Limits, s: Keys, acts: seq<Act>, now: real) {
    PossibleRun(limits, s, acts) && After(limits, s, acts).requests.clock <= now
  }

  /** The steps that others take between the two pipelines of a check: theirs, and possible ones. */
  ghost predicate Undisturbed(limits: Limits, s: Keys, counted: real, others: seq<Act>, added: real) {
    OfOthers(|s.requests.pending|, others) && Follows(limits, Next(limits, s, Count(counted)), others, added)
  }

  /** The acts of a check of requests, and of the others in between. */
  function RequestActs(waiting: nat, counted: real, others: seq<Act>, added: real, passes: bool): seq<Act> {
    if passes then [Count(counted)] + others + [Add(Place(waiting, others), counted, added)] else [Count(counted)]
  }

  lemma RequestRun(limits: Limits, s: Keys, waiting: nat, counted: real, others: seq<Act>, added: real)
    ensures After(limits, s, RequestActs(waiting, counted, others, added, false)) == Next(limits, s, Count(counted))
    ensures After(limits, s, RequestActs(waiting, counted, others, added, true)) ==
            Next(limits, After(limits, Next(limits, s, Count(counted)), others), Add(Place(waiting, others), counted, added))
  {
    AfterSnoc(limits, s, [], Count(counted));
    assert [] + [Count(counted)] == [Count(counted)];
    AfterAppend(limits, s, [Count(counted)], others);
    AfterSnoc(limits, s, [Count(counted)] + others, Add(Place(waiting, others), counted, added));
  }

  lemma {:induction false} PossibleAt(limits: Limits, s: Keys, acts: seq<Act>, i: nat)
    requires PossibleRun(limits, s, acts) && i < |acts|
    ensures Possible(After(limits, s, acts[..i]), acts[i])
  {
    var n := |acts| - 1;
    if i < n {
      PossibleAt(limits, s, acts[..n], i);
      assert acts[..n][..i] == acts[..i];
    }
  }

  /** The score of a waiting check stays where Place says. */
  lemma {:induction false} StillWaiting(limits: Limits, s: Keys, i: nat, acts: seq<Act>)
    requires PossibleRun(limits, s, acts) && OfOthers(i, acts) && i < |s.requests.pending|
    ensures var p := After(limits, s, acts).requests.pending;
            Place(i, acts) < |p| && p[Place(i, acts)] == s.requests.pending[i]
  {
    if acts != [] {
      var n := |acts| - 1;
      StillWaiting(limits, s, i, acts[..n]);
      StillWaitingStep(limits, After(limits, s, acts[..n]), Place(i, acts[..n]), acts[n]);
    }
  }

  lemma StillWaitingStep(limits: Limits, s: Keys, at: nat, a: Act)
    requires Possible(s, a) && at < |s.requests.pending| && !(a.Add? && a.i == at)
    ensures var p, now := Next(limits, s, a).requests.pending, if a.Add? && a.i < at then at - 1 else at;
            now < |p| && p[now] == s.requests.pending[at]
  {
  }

  lemma {:induction false} LogGrows(limits: Limits, s: Keys, acts: seq<Act>, score: real)
    requires score in s.requests.log
    ensures score in After(limits, s, acts).requests.log
  {
    if acts != [] {
      LogGrows(limits, s, acts[..|acts| - 1], score);
    }
  }

  // Every run of the limiter is a run of both budgets.

  function WindowSteps(acts: seq<Act>): seq<RW.Step> {
    if acts == [] then []
    else
      var a := acts[|acts| - 1];
      WindowSteps(acts[..|acts| - 1]) + [RW.Tick(a.now)] +
      match a
      case Count(_) => [RW.Count]
      case Add(i, _, _) => [RW.Add(i)]
      case ExpireRequests(_) => [RW.Expire]
      case _ => []
  }

  function BudgetSteps(acts: seq<Act>): seq<TB.Step> {
    if acts == [] then []
    else
      var a := acts[|acts| - 1];
      BudgetSteps(acts[..|acts| - 1]) + [TB.Tick(a.now)] +
      match a
      case CheckBudget(_) => [TB.Check]
      case Record(n, _) => [TB.Record(n)]
      case Abandon(_) => [TB.Abandon]
      case ExpireTokens(d, _) => [TB.Expire(d)]
      case _ => []
  }

  lemma {:induction false} RunsOfBoth(limits: Limits, s: Keys, acts: seq<Act>)
    ensures After(limits, s, acts).requests == RW.Run(limits.rpm, s.requests, WindowSteps(acts))
    ensures After(limits, s, acts).tokens == TB.Run(limits.tpd, s.tokens, BudgetSteps(acts))
  {
    if acts != [] {
      var n := |acts| - 1;
      RunsOfBoth(limits, s, acts[..n]);
      WindowStep(limits, s.requests, WindowSteps(acts[..n]), acts[n]);
      BudgetStep(limits, s.tokens, BudgetSteps(acts[..n]), acts[n]);
    }
  }

  lemma WindowStep(limits: Limits, w: RW.Window, steps: seq<RW.Step>, a: Act)
    ensures var u := RW.Next(limits.rpm, RW.Run(limits.rpm, w, steps), RW.Tick(a.now));
            && RW.Run(limits.rpm, w, steps + [RW.Tick(a.now)] + []) == u
            && (forall step :: RW.Run(limits.rpm, w, steps + [RW.Tick(a.now)] + [step]) == RW.Next(limits.rpm, u, step))
  {
    var ticked := steps + [RW.Tick(a.now)];
    RW.RunSnoc(limits.rpm, w, steps, RW.Tick(a.now));
    assert ticked + [] == ticked;
    forall step ensures RW.Run(limits.rpm, w, ticked + [step]) == RW.Next(limits.rpm, RW.Run(limits.rpm, w, ticked), step) {
      RW.RunSnoc(limits.rpm, w, ticked, step);
    }
  }

  lemma BudgetStep(limits: Limits, t: TB.Tokens, steps: seq<TB.Step>, a: Act)
    ensures var u := TB.Next(limits.tpd, TB.Run(limits.tpd, t, steps), TB.Tick(a.now));
            && TB.Run(limits.tpd, t, steps + [TB.Tick(a.now)] + []) == u
            && (forall step :: TB.Run(limits.tpd, t, steps + [TB.Tick(a.now)] + [step]) == TB.Next(limits.tpd, u, step))
  {
    var ticked := steps + [TB.Tick(a.now)];
    TB.RunSnoc(limits.tpd, t, steps, TB.Tick(a.now));
    assert ticked + [] == ticked;
    forall step ensures TB.Run(limits.tpd, t, ticked + [step]) == TB.Next(limits.tpd, TB.Run(limits.tpd, t, ticked), step) {
      TB.RunSnoc(limits.tpd, t, ticked, step);
    }
  }

  /** What has become of the tenant's keys since they were first used. */
  function Since(limits: Limits, start: real, acts: seq<Act>): Keys {
    After(limits, Keys(RW.Start(start), TB.Start(start)), acts)
  }

  /** In every run of the limiter, whoever acts: a count lets its check through exactly if fewer than rpm requests
      were admitted in the last 60 seconds. */
  lemma CountDecides(limits: Limits, start: real, acts: seq<Act>, now: real)
    requires now >= Since(limits, start, acts).requests.clock
    ensures var w := Since(limits, start, acts).requests;
            Next(limits, Since(limits, start, acts), Count(now)).requests.pending ==
            if RW.Above(w.log, now - 60.0) < limits.rpm then w.pending + [now] else w.pending
  {
    var steps := WindowSteps(acts);
    RunsOfBoth(limits, Keys(RW.Start(start), TB.Start(start)), acts);
    RW.RunSnoc(limits.rpm, RW.Start(start), steps, RW.Tick(now));
    RW.CountDecides(limits.rpm, start, steps + [RW.Tick(now)]);
  }

  /** And a token check refuses exactly if tokens were recorded today, and have reached tpd. */
  lemma BudgetDecides(limits: Limits, start: real, acts: seq<Act>, now: real)
    requires now >= Since(limits, start, acts).tokens.clock
    ensures var t := Since(limits, start, acts).tokens;
            var total := TB.Spent(t.spent, TB.Day(now));
            Next(limits, Since(limits, start, acts), CheckBudget(now)).tokens.working ==
            t.working + if total > 0 && total >= limits.tpd then 0 else 1
  {
    var days := BudgetSteps(acts);
    RunsOfBoth(limits, Keys(RW.Start(start), TB.Start(start)), acts);
    TB.RunSnoc(limits.tpd, TB.Start(start), days, TB.Tick(now));
    TB.RefusesOnTotal(limits.tpd, start, days + [TB.Tick(now)]);
  }

  /** Both budgets over every run of the limiter, however the steps of its callers interleave: with at most k
      checks between their pipelines, no minute holds more than rpm + k - 1 admissions; with at most j requests
      at work that record at most m tokens each, no day more than max(tpd - 1, 0) + j * m tokens. */
  lemma BothBudgets(limits: Limits, now: real, acts: seq<Act>, k: nat, j: nat, m: nat, t: real, d: int)
    requires RW.AtMost(k, limits.rpm, RW.Start(now), WindowSteps(acts))
    requires TB.Disciplined(j, m, limits.tpd, TB.Start(now), BudgetSteps(acts))
    ensures var s := After(limits, Keys(RW.Start(now), TB.Start(now)), acts);
            && RW.InWindow(s.requests.log, t) <= RW.Bound(limits.rpm, k)
            && TB.Spent(s.tokens.spent, d) <= TB.Bound(limits.tpd, j, m)
  {
    RunsOfBoth(limits, Keys(RW.Start(now), TB.Start(now)), acts);
    RW.SlidingWindow(limits.rpm, k, now, WindowSteps(acts), t);
    TB.DailyBudget(limits.tpd, j, m, now, BudgetSteps(acts), d);
  }
}
