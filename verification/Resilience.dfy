/**
 Retries over a shared circuit breaker: `call_with_retries` and the stream that is retried only
 until its first event. What the provider answers, what other callers do to the breaker and what
 the clock reads are scripts, one entry for each attempt.
 */
module Resilience {
  import opened Prelude
  import opened CircuitBreaking

  datatype LlmError =
    | RateLimited(retryAfter: Option<real>)
    | ProviderUnavailable
    | CircuitOpen
    | ContextTooLong
    | ProviderBadRequest
    | ProviderNotConfigured
  {
    predicate Retryable() {
      RateLimited? || ProviderUnavailable?
    }
  }

  datatype RetryPolicy = RetryPolicy(maxAttempts: nat, baseDelay: real, maxDelay: real) {
    predicate Valid() {
      maxAttempts >= 1 && 0.0 <= baseDelay && 0.0 <= maxDelay
    }

    function Exponential(attempt: nat): (d: real)
      requires Valid()
      ensures 0.0 <= d <= maxDelay
    {
      var d := baseDelay * Power2(attempt) as real;
      if d < maxDelay then d else maxDelay
    }

    /** `jitter` in [0, 1] is the random choice between half and full backoff. */
    function DelayFor(attempt: nat, retryAfter: Option<real>, jitter: real): (d: real)
      requires Valid() && 0.0 <= jitter <= 1.0
      ensures retryAfter.Some? ==> d <= 60.0 && d <= retryAfter.value && (d == 60.0 || d == retryAfter.value)
      ensures retryAfter.None? ==> Exponential(attempt) / 2.0 <= d <= Exponential(attempt) <= maxDelay
    {
      match retryAfter
      case Some(r) => if r < 60.0 then r else 60.0
      case None =>
        var e := Exponential(attempt);
        HalfToFull(e, jitter);
        e / 2.0 + jitter * (e / 2.0)
    }
  }

  function Power2(n: nat): (p: nat)
    ensures p >= 1
  {
    if n == 0 then 1 else 2 * Power2(n - 1)
  }

  lemma HalfToFull(e: real, jitter: real)
    requires 0.0 <= e && 0.0 <= jitter <= 1.0
    ensures e / 2.0 <= e / 2.0 + jitter * (e / 2.0) <= e
  {
    var h := e / 2.0;
    assert 0.0 <= jitter * h;
    assert 0.0 <= (1.0 - jitter) * h == h - jitter * h;
  }

  /** What another caller does to the breaker. */
  datatype Op = OtherCheck(now: real) | OtherSuccess(now: real) | OtherFailure(now: real)

  function Apply(c: Config, h: History, ops: seq<Op>): History
    requires c.Valid()
    decreases ops
  {
    if ops == [] then h
    else
      var e := match ops[0]
        case OtherCheck(t) => Checked(t, Admits(c, h, t))
        case OtherSuccess(t) => Succeeded(t)
        case OtherFailure(t) => Failed(t);
      Apply(c, h + [e], ops[1..])
  }

  method Interfere(breaker: CircuitBreaker, ops: seq<Op>)
    requires breaker.Valid()
    modifies breaker
    ensures breaker.Valid()
    ensures breaker.history == Apply(breaker.config, old(breaker.history), ops)
  {
    var i := 0;
    while i < |ops|
      invariant 0 <= i <= |ops| && breaker.Valid()
      invariant Apply(breaker.config, breaker.history, ops[i..]) == Apply(breaker.config, old(breaker.history), ops)
    {
      assert ops[i..][1..] == ops[i + 1..];
      match ops[i] {
        case OtherCheck(t) => var _ := breaker.Check(t);
        case OtherSuccess(t) => breaker.RecordSuccess(t);
        case OtherFailure(t) => breaker.RecordFailure(t);
      }
      i := i + 1;
    }
    assert ops[i..] == [];
  }

  /** How one call of the provider ended; Crashed is an exception that is not an LLMError. */
  datatype Outcome<T> = Returned(value: T) | Raised(error: LlmError) | Crashed

  /** One attempt: others act before it, its check reads the clock, the provider answers while others
      act, and its report, if it makes one, reads the clock again. */
  datatype Attempt<T> = Attempt(
    before: seq<Op>, checkAt: real, outcome: Outcome<T>, during: seq<Op>, reportAt: real, jitter: real)

  /** The report rule: rate limits do not feed the breaker, every other LLMError does. */
  function Report<T>(h: History, outcome: Outcome<T>, at: real): History {
    match outcome
    case Returned(_) => h + [Succeeded(at)]
    case Raised(e) => if e.RateLimited? then h else h + [Failed(at)]
    case Crashed => h
  }

  /** Every LLMError except a rate limit counts as a failure, a rejected request as much as an outage
      (the repository's README, lines 191-193, says that only outages do). */
  lemma WhatFeedsTheBreaker<T>(h: History, e: LlmError, at: real)
    ensures var g := Report(h, Outcome<T>.Raised(e), at);
            (Failures(g) == Failures(h) + 1 <==> !e.RateLimited?) && (e.RateLimited? ==> g == h)
  {
    assert (h + [Failed(at)])[..|h|] == h;
  }

  datatype Result<T> =
    | Value(value: T)
    | Error(error: LlmError)  // raised by the provider
    | Refused                 // CircuitOpen raised by the breaker
    | Crash

  datatype Run<T> = Run(result: Result<T>, history: History, calls: nat, sleeps: seq<real>)

  ghost predicate Scripted<T>(policy: RetryPolicy, script: seq<Attempt<T>>) {
    policy.Valid() && |script| == policy.maxAttempts &&
    forall i :: 0 <= i < |script| ==> 0.0 <= script[i].jitter <= 1.0
  }

  function RetryAfter(e: LlmError): Option<real> {
    if e.RateLimited? then e.retryAfter else None
  }

  predicate LetThrough<T>(c: Config, h: History, a: Attempt<T>)
    requires c.Valid()
  {
    Admits(c, Apply(c, h, a.before), a.checkAt)
  }

  /** The breaker's history after one attempt, refused or not. */
  function AfterAttempt<T>(c: Config, h: History, a: Attempt<T>): History
    requires c.Valid()
  {
    var checked := Apply(c, h, a.before) + [Checked(a.checkAt, LetThrough(c, h, a))];
    if LetThrough(c, h, a) then Report(Apply(c, checked, a.during), a.outcome, a.reportAt) else checked
  }

  /** `call_with_retries` from attempt n on. */
  function Retry<T>(c: Config, policy: RetryPolicy, script: seq<Attempt<T>>, n: nat, last: LlmError, h: History): Run<T>
    requires c.Valid() && Scripted(policy, script) && n <= |script|
    decreases |script| - n
  {
    if n == |script| then Run(Error(last), h, n, [])
    else
      var a := script[n];
      var h1 := AfterAttempt(c, h, a);
      if !LetThrough(c, h, a) then Run(Refused, h1, n, [])
      else
        match a.outcome
        case Returned(v) => Run(Value(v), h1, n + 1, [])
        case Crashed => Run(Crash, h1, n + 1, [])
        case Raised(e) =>
          if !e.Retryable() then Run(Error(e), h1, n + 1, [])
          else After([policy.DelayFor(n, RetryAfter(e), a.jitter)], Retry(c, policy, script, n + 1, e, h1))
  }

  function After<T>(sleeps: seq<real>, r: Run<T>): Run<T> {
    r.(sleeps := sleeps + r.sleeps)
  }

  lemma SleepThen<T>(sleeps: seq<real>, delay: real, r: Run<T>)
    ensures After(sleeps, After([delay], r)) == After(sleeps + [delay], r)
  {
    Assoc(sleeps, [delay], r.sleeps);
  }

  /** One attempt: the check, the call, and its report. */
  method TryOnce<T>(breaker: CircuitBreaker, a: Attempt<T>) returns (admitted: bool)
    requires breaker.Valid()
    modifies breaker
    ensures breaker.Valid()
    ensures admitted == LetThrough(breaker.config, old(breaker.history), a)
    ensures breaker.history == AfterAttempt(breaker.config, old(breaker.history), a)
  {
    Interfere(breaker, a.before);
    admitted := breaker.Check(a.checkAt);
    if !admitted {
      return;
    }
    Interfere(breaker, a.during);
    match a.outcome {
      case Crashed =>
      case Raised(e) =>
        if !e.RateLimited? {
          breaker.RecordFailure(a.reportAt);
        }
      case Returned(_) =>
        breaker.RecordSuccess(a.reportAt);
    }
  }

  lemma NoMoreSleeps<T>(sleeps: seq<real>, r: Run<T>)
    ensures r.sleeps == [] ==> After(sleeps, r) == Run(r.result, r.history, r.calls, sleeps)
  {
    assert sleeps + [] == sleeps;
  }

  /** Unfolding one attempt. */
  lemma AttemptStep<T>(c: Config, policy: RetryPolicy, script: seq<Attempt<T>>, n: nat, last: LlmError, h: History, h1: History)
    requires c.Valid() && Scripted(policy, script) && n < |script| && h1 == AfterAttempt(c, h, script[n])
    ensures Retry(c, policy, script, n, last, h) ==
            if !LetThrough(c, h, script[n]) then Run(Refused, h1, n, [])
            else
              match script[n].outcome
              case Returned(v) => Run(Value(v), h1, n + 1, [])
              case Crashed => Run(Crash, h1, n + 1, [])
              case Raised(e) =>
                if !e.Retryable() then Run(Error(e), h1, n + 1, [])
                else
                  After([policy.DelayFor(n, RetryAfter(e), script[n].jitter)], Retry(c, policy, script, n + 1, e, h1))
  {
  }

  method CallWithRetries<T>(policy: RetryPolicy, breaker: CircuitBreaker, script: seq<Attempt<T>>)
    returns (result: Result<T>, calls: nat, sleeps: seq<real>)
    requires breaker.Valid() && Scripted(policy, script)
    modifies breaker
    ensures breaker.Valid()
    ensures Run(result, breaker.history, calls, sleeps) ==
            Retry(breaker.config, policy, script, 0, CircuitOpen, old(breaker.history))
  {
    var lastError := CircuitOpen;
    calls, sleeps := 0, [];
    var attempt := 0;
    while attempt < policy.maxAttempts
      invariant 0 <= attempt <= policy.maxAttempts && calls == attempt && breaker.Valid()
      invariant After(sleeps, Retry(breaker.config, policy, script, attempt, lastError, breaker.history)) ==
                Retry(breaker.config, policy, script, 0, CircuitOpen, old(breaker.history))
    {
      var a := script[attempt];
      ghost var h := breaker.history;
      var admitted := TryOnce(breaker, a);
      AttemptStep(breaker.config, policy, script, attempt, lastError, h, breaker.history);
      NoMoreSleeps(sleeps, Retry(breaker.config, policy, script, attempt, lastError, h));
      if !admitted {
        result := Refused;
        return;
      }
      calls := calls + 1;
      match a.outcome {
        case Crashed => result := Crash; return;
        case Raised(e) =>
          if !e.Retryable() {
            result := Error(e);
            return;
          }
          lastError := e;
          var delay := policy.DelayFor(attempt, RetryAfter(e), a.jitter);
          SleepThen(sleeps, delay, Retry(breaker.config, policy, script, attempt + 1, e, breaker.history));
          sleeps := sleeps + [delay];
        case Returned(v) =>
          result := Value(v);
          return;
      }
      attempt := attempt + 1;
    }
    result := Error(lastError);
  }

  /** Unfolding one admitted attempt. */
  lemma RetryStep<T>(c: Config, policy: RetryPolicy, script: seq<Attempt<T>>, n: nat, last: LlmError, h: History,
                     h3: History)
    requires c.Valid() && Scripted(policy, script) && n < |script|
    requires var a := script[n];
             var h1 := Apply(c, h, a.before);
             Admits(c, h1, a.checkAt) &&
             h3 == Report(Apply(c, h1 + [Checked(a.checkAt, true)], a.during), a.outcome, a.reportAt)
    ensures Retry(c, policy, script, n, last, h) ==
            match script[n].outcome
            case Returned(v) => Run(Value(v), h3, n + 1, [])
            case Crashed => Run(Crash, h3, n + 1, [])
            case Raised(e) =>
              if e.Retryable() then
                After([policy.DelayFor(n, RetryAfter(e), script[n].jitter)], Retry(c, policy, script, n + 1, e, h3))
              else Run(Error(e), h3, n + 1, [])
  {
  }

  /** A rate limit, or the provider being down; nothing else. */
  predicate MayRetry(e: LlmError) {
    match e
    case RateLimited(_) => true
    case ProviderUnavailable => true
    case CircuitOpen => false
    case ContextTooLong => false
    case ProviderBadRequest => false
    case ProviderNotConfigured => false
  }

  ghost predicate RetryableAt<T>(script: seq<Attempt<T>>, i: nat)
    requires i < |script|
  {
    script[i].outcome.Raised? && MayRetry(script[i].outcome.error)
  }

  ghost predicate AllRetryable<T>(script: seq<Attempt<T>>, from: nat, to: nat)
    requires to <= |script|
  {
    forall i :: from <= i < to ==> RetryableAt(script, i)
  }

  /** What the loop returns or raises: the first success, crash or non-retryable error if it comes within
      `max_attempts`; else the last error; else CircuitOpen at the first refused check. Every call before the last one
      failed with a retryable error, and every retryable failure is followed by a sleep, the last one too. */
  ghost predicate Explains<T>(script: seq<Attempt<T>>, n: nat, last: LlmError, r: Run<T>) {
    && n <= r.calls <= |script|
    && match r.result
       case Value(v) =>
         && r.calls > n && script[r.calls - 1].outcome == Returned(v)
         && AllRetryable(script, n, r.calls - 1) && |r.sleeps| == r.calls - n - 1
       case Crash =>
         && r.calls > n && script[r.calls - 1].outcome == Crashed
         && AllRetryable(script, n, r.calls - 1) && |r.sleeps| == r.calls - n - 1
       case Error(e) =>
         if r.calls > n && !MayRetry(e) then
           && script[r.calls - 1].outcome == Raised(e)
           && AllRetryable(script, n, r.calls - 1) && |r.sleeps| == r.calls - n - 1
         else
           && r.calls == |script| && AllRetryable(script, n, r.calls) && |r.sleeps| == r.calls - n
           && (if r.calls > n then script[r.calls - 1].outcome == Raised(e) else e == last)
       case Refused =>
         && r.calls < |script| && AllRetryable(script, n, r.calls) && |r.sleeps| == r.calls - n
         && r.history != [] && r.history[|r.history| - 1] == Checked(script[r.calls].checkAt, false)
  }

  lemma {:induction false} RetryOutcome<T>(c: Config, policy: RetryPolicy, script: seq<Attempt<T>>, n: nat,
                                           last: LlmError, h: History)
    requires c.Valid() && Scripted(policy, script) && n <= |script|
    ensures Explains(script, n, last, Retry(c, policy, script, n, last, h))
    decreases |script| - n
  {
    if n < |script| && RetryableAt(script, n) {
      RetryOutcome(c, policy, script, n + 1, script[n].outcome.error, AfterAttempt(c, h, script[n]));
    }
  }

  // What the breaker is told, and how long is waited.

  /** The history when the call of an attempt ends: what others did, the check let through, and what others did
      meanwhile. */
  function Asked(c: Config, h: History, before: seq<Op>, checkAt: real, during: seq<Op>): History
    requires c.Valid()
  {
    Apply(c, Apply(c, h, before) + [Checked(checkAt, true)], during)
  }

  /** Success and every error that is not a rate limit are reported; a rate limit and a crash are not. */
  function Told<T>(outcome: Outcome<T>, at: real): seq<Event> {
    match outcome
    case Returned(_) => [Succeeded(at)]
    case Crashed => []
    case Raised(RateLimited(_)) => []
    case Raised(ProviderUnavailable) => [Failed(at)]
    case Raised(CircuitOpen) => [Failed(at)]
    case Raised(ContextTooLong) => [Failed(at)]
    case Raised(ProviderBadRequest) => [Failed(at)]
    case Raised(ProviderNotConfigured) => [Failed(at)]
  }

  /** The history after the calls n..m. */
  function HistoryOf<T>(c: Config, script: seq<Attempt<T>>, n: nat, m: nat, h: History): History
    requires c.Valid() && n <= m <= |script|
    decreases m - n
  {
    if n == m then h
    else
      var a := script[n];
      HistoryOf(c, script, n + 1, m, Asked(c, h, a.before, a.checkAt, a.during) + Told(a.outcome, a.reportAt))
  }

  /** base * 2 * ... * 2 */
  function Doubled(base: real, n: nat): real {
    if n == 0 then base else 2.0 * Doubled(base, n - 1)
  }

  /** After the failure of attempt k: what the provider asked for, but a minute at most; or, if it asked for nothing,
      between half and all of the backoff, which doubles from attempt to attempt up to its maximum. */
  predicate WaitsRight(policy: RetryPolicy, e: LlmError, k: nat, d: real) {
    if e.RateLimited? && e.retryAfter.Some? then
      d <= e.retryAfter.value && d <= 60.0 && (d == e.retryAfter.value || d == 60.0)
    else
      var doubled := Doubled(policy.baseDelay, k);
      var backoff := if doubled < policy.maxDelay then doubled else policy.maxDelay;
      backoff / 2.0 <= d <= backoff
  }

  lemma {:induction false} DoublingIsPower(base: real, n: nat)
    ensures base * Power2(n) as real == Doubled(base, n)
  {
    if n > 0 {
      DoublingIsPower(base, n - 1);
      Twice(base, Power2(n - 1));
    }
  }

  lemma Twice(base: real, p: nat)
    ensures base * (2 * p) as real == 2.0 * (base * p as real)
  {
    var q := p as real;
    assert (2 * p) as real == 2.0 * q;
    assert base * (2.0 * q) == 2.0 * (base * q);
  }

  lemma DelayWaitsRight(policy: RetryPolicy, e: LlmError, k: nat, jitter: real)
    requires policy.Valid() && 0.0 <= jitter <= 1.0
    ensures WaitsRight(policy, e, k, policy.DelayFor(k, RetryAfter(e), jitter))
  {
    DoublingIsPower(policy.baseDelay, k);
  }

  /** The breaker's history and the sleeps of a whole call with retries, in closed form. */
  ghost predicate Accounts<T>(c: Config, policy: RetryPolicy, script: seq<Attempt<T>>, n: nat, h: History, r: Run<T>)
    requires c.Valid()
  {
    && n <= r.calls <= |script|
    && (var told := HistoryOf(c, script, n, r.calls, h);
        if r.result.Refused? then
          && r.calls < |script|
          && r.history == Apply(c, told, script[r.calls].before) + [Checked(script[r.calls].checkAt, false)]
        else r.history == told)
    && |r.sleeps| <= r.calls - n
    && forall j :: 0 <= j < |r.sleeps| ==> SleptAfter(policy, script, n + j, r.sleeps[j])
  }

  ghost predicate SleptAfter<T>(policy: RetryPolicy, script: seq<Attempt<T>>, k: nat, d: real)
    requires k < |script|
  {
    script[k].outcome.Raised? && WaitsRight(policy, script[k].outcome.error, k, d)
  }

  /** A whole call with retries tells the breaker of each attempt in turn, and sleeps the doubling backoff or the
      server's delay. */
  lemma {:induction false} RetryAccounts<T>(c: Config, policy: RetryPolicy, script: seq<Attempt<T>>, n: nat,
                                            last: LlmError, h: History)
    requires c.Valid() && Scripted(policy, script) && n <= |script|
    ensures Accounts(c, policy, script, n, h, Retry(c, policy, script, n, last, h))
    decreases |script| - n
  {
    if n < |script| && LetThrough(c, h, script[n]) {
      var a := script[n];
      AttemptTold(c, h, a);
      if a.outcome.Raised? && a.outcome.error.Retryable() {
        var e := a.outcome.error;
        var h1 := AfterAttempt(c, h, a);
        RetryAccounts(c, policy, script, n + 1, e, h1);
        DelayWaitsRight(policy, e, n, a.jitter);
        AccountsStep(c, policy, script, n, h, policy.DelayFor(n, RetryAfter(e), a.jitter), Retry(c, policy, script, n + 1, e, h1));
      }
    }
  }

  lemma AttemptTold<T>(c: Config, h: History, a: Attempt<T>)
    requires c.Valid() && LetThrough(c, h, a)
    ensures AfterAttempt(c, h, a) == Asked(c, h, a.before, a.checkAt, a.during) + Told(a.outcome, a.reportAt)
  {
  }

  lemma AccountsStep<T>(c: Config, policy: RetryPolicy, script: seq<Attempt<T>>, n: nat, h: History, d: real, r: Run<T>)
    requires c.Valid() && n < |script| && LetThrough(c, h, script[n])
    requires Accounts(c, policy, script, n + 1, AfterAttempt(c, h, script[n]), r) && SleptAfter(policy, script, n, d)
    ensures Accounts(c, policy, script, n, h, After([d], r))
  {
    AttemptTold(c, h, script[n]);
    var sleeps := [d] + r.sleeps;
    forall j | 0 <= j < |sleeps| ensures SleptAfter(policy, script, n + j, sleeps[j]) {
      if j > 0 {
        assert SleptAfter(policy, script, n + 1 + (j - 1), r.sleeps[j - 1]);
      }
    }
  }

  /** Nobody else uses the breaker, the provider is always unavailable, and each check comes less than
      `recovery` after the report before it. */
  ghost predicate AloneAndDown<T>(c: Config, script: seq<Attempt<T>>) {
    && (forall i :: 0 <= i < |script| ==>
          script[i].before == [] && script[i].during == [] && script[i].outcome == Raised(ProviderUnavailable))
    && (forall i :: 0 <= i < |script| - 1 ==> script[i + 1].checkAt - script[i].reportAt < c.recovery)
  }

  function Min(a: int, b: int): int {
    if a < b then a else b
  }

  /** Against a provider that is down, a closed breaker with `c0` failures lets exactly
      min(max_attempts, threshold - c0) calls through, and the caller sees CircuitOpen, rather than the
      provider's error, exactly when the threshold is met first. */
  lemma DownProvider<T>(c: Config, policy: RetryPolicy, script: seq<Attempt<T>>, h: History)
    requires c.Valid() && Scripted(policy, script) && AloneAndDown(c, script)
    requires !IsOpen(c, h)
    ensures var r := Retry(c, policy, script, 0, CircuitOpen, h);
            && r.calls == Min(policy.maxAttempts, c.threshold - Failures(h))
            && (r.result.Refused? <==> c.threshold - Failures(h) < policy.maxAttempts)
            && (!r.result.Refused? ==> r.result == Error(ProviderUnavailable))
  {
    DownFrom(c, policy, script, 0, CircuitOpen, h, Failures(h));
  }

  lemma {:induction false} DownFrom<T>(c: Config, policy: RetryPolicy, script: seq<Attempt<T>>, n: nat, last: LlmError,
                                       h: History, c0: nat)
    requires c.Valid() && Scripted(policy, script) && AloneAndDown(c, script) && n <= |script|
    requires c0 < c.threshold && c0 + n <= c.threshold && Failures(h) == c0 + n
    requires n > 0 ==> last == ProviderUnavailable && LastFailure(h) == Some(script[n - 1].reportAt)
    ensures var r := Retry(c, policy, script, n, last, h);
            && r.calls == Min(policy.maxAttempts, c.threshold - c0)
            && (r.result.Refused? <==> c.threshold - c0 < policy.maxAttempts)
            && (!r.result.Refused? ==> r.result == Error(ProviderUnavailable))
    decreases |script| - n
  {
    if n < |script| {
      var a := script[n];
      if c0 + n < c.threshold {
        var h2 := h + [Checked(a.checkAt, true)];
        assert h2[..|h|] == h;
        assert (h2 + [Failed(a.reportAt)])[..|h2|] == h2;
        DownFrom(c, policy, script, n + 1, ProviderUnavailable, h2 + [Failed(a.reportAt)], c0);
      }
    }
  }

  // Streams.

  datatype Ending = Ended | Broke(error: LlmError) | StreamCrashed

  /** One attempt of the inner stream: the events it yields and how it ends. */
  datatype Inner<E> = Inner(events: seq<E>, ending: Ending) {
    /** What `anext` gives first, as the outcome that is reported to the breaker. */
    function First(): Outcome<()> {
      if events != [] || ending.Ended? then Returned(())
      else if ending.Broke? then Raised(ending.error)
      else Crashed
    }

    predicate FailedBeforeFirstEvent() {
      events == [] && ending.Broke? && ending.error.Retryable()
    }
  }

  datatype StreamAttempt<E> = StreamAttempt(
    before: seq<Op>, checkAt: real, inner: Inner<E>, during: seq<Op>, reportAt: real, jitter: real) {
    /** The attempt up to the first event, as the breaker sees it. */
    function Opening(): Attempt<()> {
      Attempt(before, checkAt, inner.First(), during, reportAt, jitter)
    }
  }

  /** Abandoned: the consumer closed the stream at a yield. */
  datatype StreamResult = Complete | StreamFailed(error: LlmError) | StreamRefused | StreamCrash | Abandoned

  datatype StreamRun<E> = StreamRun(
    output: seq<E>, result: StreamResult, history: History, attempts: nat, sleeps: seq<real>)

  ghost predicate StreamScripted<E>(policy: RetryPolicy, script: seq<StreamAttempt<E>>) {
    policy.Valid() && |script| == policy.maxAttempts &&
    forall i :: 0 <= i < |script| ==> 0.0 <= script[i].jitter <= 1.0
  }

  function EndResult(ending: Ending): StreamResult {
    match ending
    case Ended => Complete
    case Broke(e) => StreamFailed(e)
    case StreamCrashed => StreamCrash
  }

  /** What a consumer gets of a stream that has come to its first event, or to its end: it goes on after
      `patience` events, and closes the stream at the next one. */
  function Surfaced<E>(inner: Inner<E>, patience: nat, h: History, attempts: nat): StreamRun<E> {
    if patience < |inner.events| then StreamRun(inner.events[..patience + 1], Abandoned, h, attempts, [])
    else StreamRun(inner.events, EndResult(inner.ending), h, attempts, [])
  }

  /** `ResilientChatProvider.stream` from attempt n on. */
  function RetryStream<E>(c: Config, policy: RetryPolicy, script: seq<StreamAttempt<E>>, patience: nat, n: nat,
                          h: History): StreamRun<E>
    requires c.Valid() && StreamScripted(policy, script) && n < |script|
    decreases |script| - n
  {
    var a := script[n];
    var h1 := AfterAttempt(c, h, a.Opening());
    if !LetThrough(c, h, a.Opening()) then StreamRun([], StreamRefused, h1, n, [])
    else if a.inner.FailedBeforeFirstEvent() && n < |script| - 1 then
      AfterSleep([policy.DelayFor(n, RetryAfter(a.inner.ending.error), a.jitter)],
                 RetryStream(c, policy, script, patience, n + 1, h1))
    else Surfaced(a.inner, patience, h1, n + 1)
  }

  function AfterSleep<E>(sleeps: seq<real>, r: StreamRun<E>): StreamRun<E> {
    r.(sleeps := sleeps + r.sleeps)
  }

  lemma SleepThenStream<E>(sleeps: seq<real>, delay: real, r: StreamRun<E>)
    ensures AfterSleep(sleeps, AfterSleep([delay], r)) == AfterSleep(sleeps + [delay], r)
  {
    Assoc(sleeps, [delay], r.sleeps);
  }

  /** Unfolding one attempt. */
  lemma StreamStep<E>(c: Config, policy: RetryPolicy, script: seq<StreamAttempt<E>>, patience: nat, n: nat, h: History,
                      h1: History)
    requires c.Valid() && StreamScripted(policy, script) && n < |script| && h1 == AfterAttempt(c, h, script[n].Opening())
    ensures var a := script[n];
            RetryStream(c, policy, script, patience, n, h) ==
            if !LetThrough(c, h, a.Opening()) then StreamRun([], StreamRefused, h1, n, [])
            else if a.inner.FailedBeforeFirstEvent() && n < |script| - 1 then
              AfterSleep([policy.DelayFor(n, RetryAfter(a.inner.ending.error), a.jitter)],
                         RetryStream(c, policy, script, patience, n + 1, h1))
            else Surfaced(a.inner, patience, h1, n + 1)
  {
  }

  method Stream<E>(policy: RetryPolicy, breaker: CircuitBreaker, script: seq<StreamAttempt<E>>, patience: nat)
    returns (output: seq<E>, result: StreamResult, attempts: nat, sleeps: seq<real>)
    requires breaker.Valid() && StreamScripted(policy, script)
    modifies breaker
    ensures breaker.Valid()
    ensures StreamRun(output, result, breaker.history, attempts, sleeps) ==
            RetryStream(breaker.config, policy, script, patience, 0, old(breaker.history))
  {
    output, attempts, sleeps := [], 0, [];
    while attempts < policy.maxAttempts
      invariant 0 <= attempts < policy.maxAttempts && output == [] && breaker.Valid()
      invariant AfterSleep(sleeps, RetryStream(breaker.config, policy, script, patience, attempts, breaker.history)) ==
                RetryStream(breaker.config, policy, script, patience, 0, old(breaker.history))
      decreases policy.maxAttempts - attempts
    {
      var a := script[attempts];
      assert sleeps + [] == sleeps;
      ghost var h := breaker.history;
      var admitted := TryOnce(breaker, a.Opening());
      StreamStep(breaker.config, policy, script, patience, attempts, h, breaker.history);
      if !admitted {
        result := StreamRefused;
        return;
      }
      attempts := attempts + 1;
      if a.inner.events != [] {
        output, result := YieldEvents(a.inner, patience);
        return;
      }
      if !a.inner.ending.Broke? {
        result := EndResult(a.inner.ending);
        return;
      }
      var e := a.inner.ending.error;
      if !e.Retryable() || attempts == policy.maxAttempts {
        result := StreamFailed(e);
        return;
      }
      var delay := policy.DelayFor(attempts - 1, RetryAfter(e), a.jitter);
      SleepThenStream(sleeps, delay, RetryStream(breaker.config, policy, script, patience, attempts, breaker.history));
      sleeps := sleeps + [delay];
    }
    assert false;
  }

  /** Past the first event nothing is retried. */
  method YieldEvents<E>(inner: Inner<E>, patience: nat) returns (output: seq<E>, result: StreamResult)
    requires inner.events != []
    ensures if patience < |inner.events| then output == inner.events[..patience + 1] && result == Abandoned
            else output == inner.events && result == EndResult(inner.ending)
  {
    output := [];
    var k := 0;
    while k < |inner.events|
      invariant 0 <= k <= |inner.events| && k <= patience && output == inner.events[..k]
    {
      output := output + [inner.events[k]];
      k := k + 1;
      if k > patience {
        return output, Abandoned;
      }
    }
    return output, EndResult(inner.ending);
  }

  /** What an attempt reports: a success if it yields an event or ends empty, a failure if before any event it breaks
      with an error that is not a rate limit, and nothing otherwise. */
  function StreamTold<E>(inner: Inner<E>, at: real): seq<Event> {
    match inner.ending
    case Ended => [Succeeded(at)]
    case Broke(RateLimited(_)) => if inner.events == [] then [] else [Succeeded(at)]
    case Broke(_) => if inner.events == [] then [Failed(at)] else [Succeeded(at)]
    case StreamCrashed => if inner.events == [] then [] else [Succeeded(at)]
  }

  function StreamHistory<E>(c: Config, script: seq<StreamAttempt<E>>, n: nat, m: nat, h: History): History
    requires c.Valid() && n <= m <= |script|
    decreases m - n
  {
    if n == m then h
    else
      var a := script[n];
      StreamHistory(c, script, n + 1, m, Asked(c, h, a.before, a.checkAt, a.during) + StreamTold(a.inner, a.reportAt))
  }

  /** The breaker's history and the sleeps of a whole retried stream, in closed form. */
  ghost predicate StreamAccounts<E>(c: Config, policy: RetryPolicy, script: seq<StreamAttempt<E>>, n: nat, h: History,
                                    r: StreamRun<E>)
    requires c.Valid()
  {
    && n <= r.attempts <= |script|
    && (var told := StreamHistory(c, script, n, r.attempts, h);
        if r.result.StreamRefused? then
          && r.attempts < |script|
          && r.history == Apply(c, told, script[r.attempts].before) + [Checked(script[r.attempts].checkAt, false)]
        else r.history == told)
    && |r.sleeps| <= r.attempts - n
    && forall j :: 0 <= j < |r.sleeps| ==> StreamSleptAfter(policy, script, n + j, r.sleeps[j])
  }

  ghost predicate StreamSleptAfter<E>(policy: RetryPolicy, script: seq<StreamAttempt<E>>, k: nat, d: real)
    requires k < |script|
  {
    script[k].inner.ending.Broke? && WaitsRight(policy, script[k].inner.ending.error, k, d)
  }

  lemma OpeningTold<E>(c: Config, h: History, a: StreamAttempt<E>)
    requires c.Valid() && LetThrough(c, h, a.Opening())
    ensures AfterAttempt(c, h, a.Opening()) ==
            Asked(c, h, a.before, a.checkAt, a.during) + StreamTold(a.inner, a.reportAt)
  {
    AttemptTold(c, h, a.Opening());
  }

  /** A whole retried stream does the same; an attempt that has yielded has told of its success. */
  lemma {:induction false} StreamRetryAccounts<E>(c: Config, policy: RetryPolicy, script: seq<StreamAttempt<E>>,
                                                  patience: nat, n: nat, h: History)
    requires c.Valid() && StreamScripted(policy, script) && n < |script|
    ensures StreamAccounts(c, policy, script, n, h, RetryStream(c, policy, script, patience, n, h))
    decreases |script| - n
  {
    var a := script[n];
    if LetThrough(c, h, a.Opening()) {
      OpeningTold(c, h, a);
      if a.inner.FailedBeforeFirstEvent() && n < |script| - 1 {
        var e := a.inner.ending.error;
        var h1 := AfterAttempt(c, h, a.Opening());
        StreamRetryAccounts(c, policy, script, patience, n + 1, h1);
        DelayWaitsRight(policy, e, n, a.jitter);
        StreamAccountsStep(c, policy, script, n, h, policy.DelayFor(n, RetryAfter(e), a.jitter),
                           RetryStream(c, policy, script, patience, n + 1, h1));
      }
    }
  }

  lemma StreamAccountsStep<E>(c: Config, policy: RetryPolicy, script: seq<StreamAttempt<E>>, n: nat, h: History, d: real,
                              r: StreamRun<E>)
    requires c.Valid() && n < |script| && LetThrough(c, h, script[n].Opening())
    requires StreamAccounts(c, policy, script, n + 1, AfterAttempt(c, h, script[n].Opening()), r)
    requires StreamSleptAfter(policy, script, n, d)
    ensures StreamAccounts(c, policy, script, n, h, AfterSleep([d], r))
  {
    OpeningTold(c, h, script[n]);
    var sleeps := [d] + r.sleeps;
    forall j | 0 <= j < |sleeps| ensures StreamSleptAfter(policy, script, n + j, sleeps[j]) {
      if j > 0 {
        assert StreamSleptAfter(policy, script, n + 1 + (j - 1), r.sleeps[j - 1]);
      }
    }
  }

  /** No replay: the events surfaced are those of one inner attempt, the last one made: all of them, unless the
      consumer closed the stream. Every attempt before it failed with a retryable error without yielding
      anything, and was followed by a sleep. A stream that ends without event and without error was an empty
      inner stream. */
  lemma {:induction false} NoReplay<E>(c: Config, policy: RetryPolicy, script: seq<StreamAttempt<E>>, patience: nat,
                                       n: nat, h: History)
    requires c.Valid() && StreamScripted(policy, script) && n < |script|
    ensures SurfacesOne(script, patience, n, RetryStream(c, policy, script, patience, n, h))
    decreases |script| - n
  {
    if script[n].inner.FailedBeforeFirstEvent() && n < |script| - 1 {
      NoReplay(c, policy, script, patience, n + 1, AfterAttempt(c, h, script[n].Opening()));
    }
  }

  ghost predicate SurfacesOne<E>(script: seq<StreamAttempt<E>>, patience: nat, n: nat, r: StreamRun<E>)
    requires n < |script|
  {
    && n <= r.attempts <= |script|
    && (forall i :: n <= i < r.attempts - 1 ==> FailedSilently(script[i].inner))
    && if r.result.StreamRefused? then
         && r.output == [] && r.attempts < |script| && |r.sleeps| == r.attempts - n
         && (r.attempts > n ==> FailedSilently(script[r.attempts - 1].inner))
         && r.history != [] && r.history[|r.history| - 1] == Checked(script[r.attempts].checkAt, false)
       else
         && r.attempts > n && |r.sleeps| == r.attempts - n - 1
         && var inner := script[r.attempts - 1].inner;
            && r.output <= inner.events
            && (r.result.Abandoned? <==> patience < |inner.events|)
            && (if r.result.Abandoned? then |r.output| == patience + 1
                else r.output == inner.events && EndsLike(inner.ending, r.result))
            && (FailedSilently(inner) ==> r.attempts == |script|)
  }

  /** Nothing yielded, and an error that may be retried. */
  ghost predicate FailedSilently<E>(inner: Inner<E>) {
    inner.events == [] && inner.ending.Broke? && MayRetry(inner.ending.error)
  }

  ghost predicate EndsLike(ending: Ending, result: StreamResult) {
    && (ending.Ended? ==> result.Complete?)
    && (ending.Broke? ==> result.StreamFailed? && result.error == ending.error)
    && (ending.StreamCrashed? ==> result.StreamCrash?)
  }
}
