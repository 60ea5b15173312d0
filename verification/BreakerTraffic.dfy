/**
 Many calls over one breaker, where a report comes only from a call that was admitted and is still in
 flight: what a half-open probe leads to, and what opens the circuit.
 */
module BreakerTraffic {
  import opened Prelude
  import opened CircuitBreaking
  import opened Resilience

  /** The breaker's history, and the calls admitted that have not ended. */
  datatype Traffic = Traffic(history: History, inFlight: nat)

  /** A call asks to be let through; a call in flight ends. */
  datatype Move = Arrive(now: real) | Depart(outcome: Outcome<()>, now: real)

  function Next(c: Config, t: Traffic, m: Move): Traffic
    requires c.Valid()
  {
    match m
    case Arrive(now) =>
      var admitted := Admits(c, t.history, now);
      Traffic(t.history + [Checked(now, admitted)], t.inFlight + if admitted then 1 else 0)
    case Depart(outcome, now) =>
      if t.inFlight == 0 then t else Traffic(Report(t.history, outcome, now), t.inFlight - 1)
  }

  function AfterMoves(c: Config, t: Traffic, moves: seq<Move>): Traffic
    requires c.Valid()
  {
    if moves == [] then t else Next(c, AfterMoves(c, t, moves[..|moves| - 1]), moves[|moves| - 1])
  }

  lemma AfterSnoc(c: Config, t: Traffic, moves: seq<Move>, m: Move)
    requires c.Valid()
    ensures AfterMoves(c, t, moves + [m]) == Next(c, AfterMoves(c, t, moves), m)
  {
    assert (moves + [m])[..|moves|] == moves;
  }

  // The half-open probe.

  /** The call ends without a report to the breaker. */
  predicate Silent<T>(o: Outcome<T>) {
    o.Crashed? || (o.Raised? && o.error.RateLimited?)
  }

  lemma ReportSnoc<T>(h: History, o: Outcome<T>, at: real)
    ensures !Silent(o) ==> Report(h, o, at)[..|h|] == h
    ensures Silent(o) ==> Report(h, o, at) == h
  {
    assert (h + [Succeeded(at)])[..|h|] == h && (h + [Failed(at)])[..|h|] == h;
  }

  /** How a probe ends decides the breaker's state: success closes it, an error that is not a rate limit opens
      it anew for a full recovery time, and a probe that ends without report leaves the flag set, so that
      nothing passes at any time. */
  lemma ProbeOutcome<T>(c: Config, h: History, t: real, o: Outcome<T>, at: real, later: real)
    requires c.Valid() && IsOpen(c, h) && Admits(c, h, t)
    ensures var g := Report(h + [Checked(t, true)], o, at);
            && (!IsOpen(c, g) <==> o.Returned?)
            && (Probing(c, g) <==> Silent(o))
            && (o.Raised? && !o.error.RateLimited? ==> LastFailure(g) == Some(at))
            && (Admits(c, g, later) <==> o.Returned? || (!Silent(o) && later - at >= c.recovery))
  {
    var probing := h + [Checked(t, true)];
    assert probing[..|h|] == h;
    assert Failures(probing) == Failures(h) && LastFailure(probing) == LastFailure(h);
    ReportSnoc(probing, o, at);
    var g := Report(probing, o, at);
    if !Silent(o) {
      assert g[|g| - 1] == (if o.Returned? then Succeeded(at) else Failed(at)) && g[..|g| - 1] == probing;
    }
  }

  /** A caller whose probe is rate limited retries, and is refused by its own lost probe. */
  lemma RateLimitedProbe<T>(c: Config, policy: RetryPolicy, script: seq<Attempt<T>>, h: History)
    requires c.Valid() && Scripted(policy, script) && policy.maxAttempts >= 2 && IsOpen(c, h)
    requires Admits(c, h, script[0].checkAt) && script[0].before == [] && script[0].during == [] && script[1].before == []
    requires script[0].outcome.Raised? && script[0].outcome.error.RateLimited?
    ensures var r := Retry(c, policy, script, 0, CircuitOpen, h);
            r.result.Refused? && r.calls == 1 && IsOpen(c, r.history) && Probing(c, r.history)
  {
    var a, b := script[0], script[1];
    var g := h + [Checked(a.checkAt, true)];
    ProbeOutcome(c, h, a.checkAt, a.outcome, a.reportAt, b.checkAt);
    assert Report(g, a.outcome, a.reportAt) == g;
    RetryStep(c, policy, script, 0, CircuitOpen, h, g);
    assert (g + [Checked(b.checkAt, false)])[..|g|] == g;
    assert Retry(c, policy, script, 1, a.outcome.error, g) == Run(Refused, g + [Checked(b.checkAt, false)], 1, []);
  }

  /** No check is admitted between the two states. */
  ghost predicate NoneAdmitted(t: Traffic, u: Traffic) {
    && t.history <= u.history
    && forall i :: |t.history| <= i < |u.history| && u.history[i].Checked? ==> !u.history[i].admitted
  }

  lemma {:induction false} LostProbe(c: Config, t: Traffic, moves: seq<Move>)
    requires c.Valid() && IsOpen(c, t.history) && Probing(c, t.history) && t.inFlight == 0
    ensures var u := AfterMoves(c, t, moves);
            && NoneAdmitted(t, u)
            && IsOpen(c, u.history) && Probing(c, u.history) && u.inFlight == 0
  {
    if moves != [] {
      var n := |moves| - 1;
      LostProbe(c, t, moves[..n]);
      var u := AfterMoves(c, t, moves[..n]);
      assert (u.history + [Checked(moves[n].now, false)])[..|u.history|] == u.history;
    }
  }

  /** The state after a probe, with `earlier` calls in flight before it. */
  function AfterProbe(c: Config, h: History, earlier: nat, t: real, o: Outcome<()>, at: real): Traffic
    requires c.Valid()
  {
    AfterMoves(c, Traffic(h, earlier), [Arrive(t), Depart(o, at)])
  }

  lemma AfterTwo(c: Config, t: Traffic, a: Move, b: Move)
    requires c.Valid()
    ensures AfterMoves(c, t, [a, b]) == Next(c, Next(c, t, a), b)
  {
    assert [a, b] == [a] + [b] && [a] == [] + [a];
    AfterSnoc(c, t, [a], b);
    AfterSnoc(c, t, [], a);
  }

  /** A half-open breaker: no check is ever admitted again, in any run, exactly if the probe is rate limited or
      ends with an exception that is not an LLMError, and no call from before the probe is still in flight. */
  lemma ProbeLostForeverIff(c: Config, h: History, earlier: nat, t: real, o: Outcome<()>, at: real)
    requires c.Valid() && IsOpen(c, h) && Admits(c, h, t)
    ensures var u := AfterProbe(c, h, earlier, t, o, at);
            (forall moves: seq<Move> :: NoneAdmitted(u, AfterMoves(c, u, moves))) <==> Silent(o) && earlier == 0
  {
    var u := AfterProbe(c, h, earlier, t, o, at);
    var later := at + c.recovery;
    AfterTwo(c, Traffic(h, earlier), Arrive(t), Depart(o, at));
    ProbeOutcome(c, h, t, o, at, later);
    if !Silent(o) {
      AfterSnoc(c, u, [], Arrive(later));
      assert [] + [Arrive(later)] == [Arrive(later)];
      var v := AfterMoves(c, u, [Arrive(later)]);
      assert v.history[|u.history|] == Checked(later, true);
    } else if earlier > 0 {
      ReportRevives(c, u, at);
    } else {
      forall moves: seq<Move> ensures NoneAdmitted(u, AfterMoves(c, u, moves)) {
        LostProbe(c, u, moves);
      }
    }
  }

  /** The success of any call in flight lets checks pass again. */
  lemma ReportRevives(c: Config, u: Traffic, at: real)
    requires c.Valid() && u.inFlight > 0
    ensures exists moves: seq<Move> :: !NoneAdmitted(u, AfterMoves(c, u, moves))
  {
    var moves := [Depart(Returned(()), at), Arrive(at)];
    AfterTwo(c, u, moves[0], moves[1]);
    var g := u.history + [Succeeded(at)];
    assert g[..|u.history|] == u.history;
    var v := AfterMoves(c, u, moves);
    assert v.history == g + [Checked(at, true)];
    assert v.history[|g|] == Checked(at, true);
    assert !NoneAdmitted(u, v);
  }

  // How many probes are out at once.

  /** Traffic that tells probes, the calls admitted since the breaker was seen open, from the calls that were in
      flight then. */
  datatype Watch = Watch(traffic: Traffic, probes: nat)

  datatype Sighting = Came(now: real) | Went(probe: bool, outcome: Outcome<()>, now: real)

  function NextSeen(c: Config, w: Watch, m: Sighting): Watch
    requires c.Valid()
  {
    match m
    case Came(now) =>
      Watch(Next(c, w.traffic, Arrive(now)), w.probes + if Admits(c, w.traffic.history, now) then 1 else 0)
    case Went(probe, outcome, now) =>
      if probe && w.probes > 0 then Watch(Next(c, w.traffic, Depart(outcome, now)), w.probes - 1)
      else if !probe && w.traffic.inFlight > w.probes then w.(traffic := Next(c, w.traffic, Depart(outcome, now)))
      else w
  }

  function AfterSeen(c: Config, w: Watch, ms: seq<Sighting>): Watch
    requires c.Valid()
  {
    if ms == [] then w else NextSeen(c, AfterSeen(c, w, ms[..|ms| - 1]), ms[|ms| - 1])
  }

  lemma AfterSeenSnoc(c: Config, w: Watch, ms: seq<Sighting>, m: Sighting)
    requires c.Valid()
    ensures AfterSeen(c, w, ms + [m]) == NextSeen(c, AfterSeen(c, w, ms), m)
  {
    assert (ms + [m])[..|ms|] == ms;
  }

  function TimeOf(from: real, ms: seq<Sighting>): real {
    if ms == [] then from else ms[|ms| - 1].now
  }

  /** No call succeeds, and the clock does not go back. */
  ghost predicate Failing(from: real, ms: seq<Sighting>) {
    ms == [] ||
    var n := |ms| - 1;
    && Failing(from, ms[..n])
    && ms[n].now >= TimeOf(from, ms[..n])
    && !(ms[n].Went? && ms[n].outcome.Returned?)
  }

  /** One more call may be let through while the flag is clear. */
  function Room(c: Config, h: History): nat {
    if Probing(c, h) then 0 else 1
  }

  /** Open, with so many calls in flight, counting the one that may still be let through, and no fewer probes. */
  ghost predicate Crowd(c: Config, w: Watch, most: nat)
    requires c.Valid()
  {
    && IsOpen(c, w.traffic.history) && w.probes <= w.traffic.inFlight
    && w.traffic.inFlight + Room(c, w.traffic.history) <= most
  }

  lemma StaysCrowd(c: Config, w: Watch, m: Sighting, most: nat)
    requires c.Valid() && Crowd(c, w, most) && !(m.Went? && m.outcome.Returned?)
    ensures Crowd(c, NextSeen(c, w, m), most)
  {
    var h := w.traffic.history;
    match m
    case Came(now) => assert (h + [Checked(now, Admits(c, h, now))])[..|h|] == h;
    case Went(_, o, now) => ReportSnoc(h, o, now);
  }

  /** While no call succeeds, an open breaker with `earlier` calls in flight has never more than one beyond
      them, and then its flag is set; so many probes at most are out at once. */
  lemma {:induction false} ProbesBounded(c: Config, h: History, earlier: nat, from: real, ms: seq<Sighting>)
    requires c.Valid() && IsOpen(c, h) && Failing(from, ms)
    ensures Crowd(c, AfterSeen(c, Watch(Traffic(h, earlier), 0), ms), earlier + Room(c, h))
  {
    if ms != [] {
      var n := |ms| - 1;
      ProbesBounded(c, h, earlier, from, ms[..n]);
      StaysCrowd(c, AfterSeen(c, Watch(Traffic(h, earlier), 0), ms[..n]), ms[n], earlier + Room(c, h));
    }
  }

  const OUTAGE := Outcome<()>.Raised(ProviderUnavailable)

  /** `left` earlier calls in flight, and so many probes out. */
  ghost predicate Out(c: Config, w: Watch, left: nat, probes: nat)
    requires c.Valid()
  {
    IsOpen(c, w.traffic.history) && w.probes == probes && w.traffic.inFlight == left + probes
  }

  lemma LateReport(c: Config, w: Watch, left: nat, probes: nat, at: real)
    requires c.Valid() && Out(c, w, left, probes) && left > 0
    ensures var v := NextSeen(c, NextSeen(c, w, Went(false, OUTAGE, at)), Came(at + c.recovery));
            Out(c, v, left - 1, probes + 1)
  {
    var h := w.traffic.history;
    var g := h + [Failed(at)];
    assert g[..|h|] == h;
    assert (g + [Checked(at + c.recovery, true)])[..|g|] == g;
  }

  lemma FailingSnoc(from: real, ms: seq<Sighting>, m: Sighting)
    requires Failing(from, ms) && m.now >= TimeOf(from, ms)
    requires !(m.Went? && m.outcome.Returned?)
    ensures Failing(from, ms + [m])
  {
    assert (ms + [m])[..|ms|] == ms;
  }

  lemma OneMoreProbe(c: Config, w: Watch, start: real, ms: seq<Sighting>, at: real, left: nat, probes: nat)
    requires c.Valid() && Failing(start, ms) && at == TimeOf(start, ms)
    requires Out(c, AfterSeen(c, w, ms), left, probes) && left > 0
    ensures var more := ms + [Went(false, OUTAGE, at)] + [Came(at + c.recovery)];
            && Failing(start, more) && TimeOf(start, more) == at + c.recovery
            && Out(c, AfterSeen(c, w, more), left - 1, probes + 1)
  {
    var report, probe := Went(false, OUTAGE, at), Came(at + c.recovery);
    FailingSnoc(start, ms, report);
    FailingSnoc(start, ms + [report], probe);
    AfterSeenSnoc(c, w, ms, report);
    AfterSeenSnoc(c, w, ms + [report], probe);
    LateReport(c, AfterSeen(c, w, ms), left, probes, at);
  }

  /** k times, an earlier call reports late, and after the recovery time a new probe comes. */
  lemma {:induction false} MoreProbes(c: Config, w: Watch, start: real, ms: seq<Sighting>, left: nat, probes: nat,
                                      k: nat)
    returns (more: seq<Sighting>)
    requires c.Valid() && Failing(start, ms) && Out(c, AfterSeen(c, w, ms), left, probes) && k <= left
    ensures Failing(start, more) && Out(c, AfterSeen(c, w, more), left - k, probes + k)
    decreases k
  {
    more := ms;
    if k > 0 {
      var at := TimeOf(start, ms);
      OneMoreProbe(c, w, start, ms, at, left, probes);
      var next := ms + [Went(false, OUTAGE, at)] + [Came(at + c.recovery)];
      more := MoreProbes(c, w, start, next, left - 1, probes + 1, k - 1);
    }
  }

  /** The bound is reached: every earlier call may clear the flag by a late failure report while probes are
      still out. */
  lemma ProbesReached(c: Config, h: History, earlier: nat, from: real) returns (ms: seq<Sighting>)
    requires c.Valid() && IsOpen(c, h) && (Probing(c, h) || from >= LastFailure(h).value + c.recovery)
    ensures Failing(from, ms)
    ensures AfterSeen(c, Watch(Traffic(h, earlier), 0), ms).probes == earlier + Room(c, h)
  {
    var w := Watch(Traffic(h, earlier), 0);
    if Probing(c, h) {
      ms := MoreProbes(c, w, from, [], earlier, 0, earlier);
    } else {
      assert (h + [Checked(from, true)])[..|h|] == h;
      AfterSeenSnoc(c, w, [], Came(from));
      assert [] + [Came(from)] == [Came(from)];
      FailingSnoc(from, [], Came(from));
      ms := MoreProbes(c, w, from, [Came(from)], earlier, 1, earlier);
    }
  }

  /** "Let exactly one probe through" (resilience.py, lines 37-40 and 61) holds in every run without a success
      exactly if no call from before can still report, or the flag is set and only one can. */
  lemma OneProbeIff(c: Config, h: History, earlier: nat, from: real)
    requires c.Valid() && IsOpen(c, h) && (Probing(c, h) || from >= LastFailure(h).value + c.recovery)
    ensures (forall ms: seq<Sighting> :: Failing(from, ms) ==> AfterSeen(c, Watch(Traffic(h, earlier), 0), ms).probes <= 1) <==>
            earlier + Room(c, h) <= 1
  {
    if earlier + Room(c, h) <= 1 {
      forall ms: seq<Sighting> | Failing(from, ms) ensures AfterSeen(c, Watch(Traffic(h, earlier), 0), ms).probes <= 1 {
        ProbesBounded(c, h, earlier, from, ms);
      }
    } else {
      var ms := ProbesReached(c, h, earlier, from);
    }
  }

  // What opens the circuit.

  /** Only calls in flight end. */
  ghost predicate Feasible(c: Config, t: Traffic, moves: seq<Move>)
    requires c.Valid()
  {
    moves == [] ||
    var n := |moves| - 1;
    (moves[n].Depart? ==> AfterMoves(c, t, moves[..n]).inFlight > 0) && Feasible(c, t, moves[..n])
  }

  predicate Counts(o: Outcome<()>) {
    o.Raised? && !o.error.RateLimited?
  }

  /** How many calls end with an LLMError that is not a rate limit. */
  function Errors(moves: seq<Move>): nat {
    if moves == [] then 0
    else
      var n := |moves| - 1;
      Errors(moves[..n]) + if moves[n].Depart? && Counts(moves[n].outcome) then 1 else 0
  }

  lemma {:induction false} ErrorsAddUp(c: Config, t: Traffic, moves: seq<Move>)
    requires c.Valid() && Feasible(c, t, moves)
    requires forall i :: 0 <= i < |moves| ==> !(moves[i].Depart? && moves[i].outcome.Returned?)
    ensures Failures(AfterMoves(c, t, moves).history) == Failures(t.history) + Errors(moves)
  {
    if moves != [] {
      var n := |moves| - 1;
      ErrorsAddUp(c, t, moves[..n]);
      var u := AfterMoves(c, t, moves[..n]);
      match moves[n]
      case Arrive(now) => assert (u.history + [Checked(now, Admits(c, u.history, now))])[..|u.history|] == u.history;
      case Depart(o, now) =>
        ReportSnoc(u.history, o, now);
        if o.Raised? {
          WhatFeedsTheBreaker<()>(u.history, o.error, now);
        }
    }
  }

  /** While no call succeeds, the circuit is open exactly if the failures before and all the errors since, other
      than rate limits, reach the threshold: bad requests as much as outages (the repository's README, lines
      191-193, says outages only). */
  lemma OpenIffErrors(c: Config, t: Traffic, moves: seq<Move>)
    requires c.Valid() && Feasible(c, t, moves)
    requires forall i :: 0 <= i < |moves| ==> !(moves[i].Depart? && moves[i].outcome.Returned?)
    ensures IsOpen(c, AfterMoves(c, t, moves).history) <==> Failures(t.history) + Errors(moves) >= c.threshold
  {
    ErrorsAddUp(c, t, moves);
  }

  /** The first attempt of a caller that nobody disturbs fails because of the request. */
  ghost predicate BadRequest<T>(policy: RetryPolicy, script: seq<Attempt<T>>) {
    && Scripted(policy, script)
    && script[0].before == [] && script[0].during == [] && script[0].outcome.Raised?
    && (script[0].outcome.error.ContextTooLong? || script[0].outcome.error.ProviderBadRequest?)
  }

  ghost predicate AllBad<T>(policy: RetryPolicy, scripts: seq<seq<Attempt<T>>>) {
    forall i :: 0 <= i < |scripts| ==> BadRequest(policy, scripts[i])
  }

  ghost function ReportTime<T>(policy: RetryPolicy, script: seq<Attempt<T>>): real
    requires BadRequest(policy, script)
  {
    script[0].reportAt
  }

  /** The run of a caller with a bad request. */
  ghost function BadRun<T>(c: Config, policy: RetryPolicy, script: seq<Attempt<T>>, h: History): Run<T>
    requires c.Valid() && BadRequest(policy, script)
  {
    Retry(c, policy, script, 0, CircuitOpen, h)
  }

  /** Callers one after the other. */
  ghost function AfterCallers<T>(c: Config, policy: RetryPolicy, scripts: seq<seq<Attempt<T>>>, h: History): History
    requires c.Valid() && AllBad(policy, scripts)
  {
    if scripts == [] then h
    else
      var n := |scripts| - 1;
      BadRun(c, policy, scripts[n], AfterCallers(c, policy, scripts[..n], h)).history
  }

  lemma BadCaller<T>(c: Config, policy: RetryPolicy, script: seq<Attempt<T>>, h: History)
    requires c.Valid() && BadRequest(policy, script) && !IsOpen(c, h)
    ensures var r := BadRun(c, policy, script, h);
            && r.result == Result<T>.Error(script[0].outcome.error) && r.calls == 1
            && Failures(r.history) == Failures(h) + 1 && LastFailure(r.history) == Some(ReportTime(policy, script))
  {
    var a := script[0];
    var g := h + [Checked(a.checkAt, true)];
    assert g[..|h|] == h;
    assert (g + [Failed(a.reportAt)])[..|g|] == g;
    RetryStep(c, policy, script, 0, CircuitOpen, h, g + [Failed(a.reportAt)]);
  }

  lemma {:induction false} BadCallers<T>(c: Config, policy: RetryPolicy, scripts: seq<seq<Attempt<T>>>, h: History)
    requires c.Valid() && AllBad(policy, scripts) && Failures(h) + |scripts| <= c.threshold
    ensures var g := AfterCallers(c, policy, scripts, h);
            && Failures(g) == Failures(h) + |scripts|
            && (scripts != [] ==> LastFailure(g) == Some(ReportTime(policy, scripts[|scripts| - 1])))
  {
    if scripts != [] {
      var n := |scripts| - 1;
      assert AllBad(policy, scripts[..n]);
      BadCallers(c, policy, scripts[..n], h);
      BadCaller(c, policy, scripts[n], AfterCallers(c, policy, scripts[..n], h));
    }
  }

  /** The i-th caller makes one call and is told that its request is bad. */
  ghost predicate ToldSo<T>(c: Config, policy: RetryPolicy, scripts: seq<seq<Attempt<T>>>, h: History, i: nat)
    requires c.Valid() && AllBad(policy, scripts) && i < |scripts|
  {
    var r := BadRun(c, policy, scripts[i], AfterCallers(c, policy, scripts[..i], h));
    r.calls == 1 && r.result == Result<T>.Error(scripts[i][0].outcome.error)
  }

  /** Nothing is wrong with the provider: `threshold - failures` callers one after the other send it a request
      that is too long or otherwise bad. Each is told so after one call; then the circuit is open for everybody,
      and whoever calls within the recovery time is refused without any call. */
  lemma BadRequestsOpenTheCircuit<T>(c: Config, policy: RetryPolicy, scripts: seq<seq<Attempt<T>>>, h: History,
                                     next: seq<Attempt<T>>)
    requires c.Valid() && !IsOpen(c, h) && AllBad(policy, scripts) && |scripts| == c.threshold - Failures(h)
    requires Scripted(policy, next) && next[0].before == []
    requires next[0].checkAt - ReportTime(policy, scripts[|scripts| - 1]) < c.recovery
    ensures forall i :: 0 <= i < |scripts| ==> ToldSo(c, policy, scripts, h, i)
    ensures var g := AfterCallers(c, policy, scripts, h);
            var r := Retry(c, policy, next, 0, CircuitOpen, g);
            IsOpen(c, g) && r.result.Refused? && r.calls == 0
  {
    BadCallers(c, policy, scripts, h);
    forall i | 0 <= i < |scripts| ensures ToldSo(c, policy, scripts, h, i) {
      BadCallers(c, policy, scripts[..i], h);
      BadCaller(c, policy, scripts[i], AfterCallers(c, policy, scripts[..i], h));
    }
  }
}
