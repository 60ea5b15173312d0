/**
 The circuit breaker shared by all callers of one provider. Its three fields are a function of
 the history of checks and reports; the functions of this module read that history backwards.
 */
module CircuitBreaking {
  import opened Prelude

  datatype Config = Config(threshold: nat, recovery: real) {
    predicate Valid() {
      threshold >= 1 && recovery > 0.0
    }
  }

  /** What happened to the breaker, with the clock reading at which it happened. */
  datatype Event =
    | Checked(at: real, admitted: bool)
    | Succeeded(at: real)
    | Failed(at: real)

  type History = seq<Event>

  /** Failures since the last success. */
  function Failures(h: History): nat {
    if h == [] then 0
    else
      var n := |h| - 1;
      match h[n]
      case Succeeded(_) => 0
      case Failed(_) => Failures(h[..n]) + 1
      case Checked(_, _) => Failures(h[..n])
  }

  function LastFailure(h: History): (t: Option<real>)
    ensures Failures(h) > 0 ==> t.Some?
  {
    if h == [] then None
    else
      var n := |h| - 1;
      if h[n].Failed? then Some(h[n].at) else LastFailure(h[..n])
  }

  predicate IsOpen(c: Config, h: History) {
    Failures(h) >= c.threshold
  }

  /** A check was admitted while open, and nobody has reported since. */
  predicate Probing(c: Config, h: History) {
    if h == [] then false
    else
      var n := |h| - 1;
      h[n].Checked? && ((h[n].admitted && IsOpen(c, h[..n])) || Probing(c, h[..n]))
  }

  predicate Admits(c: Config, h: History, now: real)
    requires c.Valid()
  {
    IsOpen(c, h) ==> now - LastFailure(h).value >= c.recovery && !Probing(c, h)
  }

  /** Every check in the history was answered as the breaker answers. */
  ghost predicate Legal(c: Config, h: History)
    requires c.Valid()
  {
    if h == [] then true
    else
      var n := |h| - 1;
      (h[n].Checked? ==> h[n].admitted == Admits(c, h[..n], h[n].at)) && Legal(c, h[..n])
  }

  /** The clock never goes back. */
  ghost predicate Timed(h: History) {
    if |h| < 2 then true
    else
      var n := |h| - 1;
      h[n - 1].at <= h[n].at && Timed(h[..n])
  }

  lemma {:induction false} Prefixes(c: Config, h: History, n: nat)
    requires c.Valid() && n <= |h| && Legal(c, h) && Timed(h)
    ensures Legal(c, h[..n]) && Timed(h[..n])
  {
    if n == |h| {
      assert h[..n] == h;
    } else {
      Prefixes(c, h[..|h| - 1], n);
      assert h[..|h| - 1][..n] == h[..n];
    }
  }

  class CircuitBreaker {
    const config: Config
    var consecutiveFailures: nat
    var openedAt: Option<real>
    var probeInFlight: bool
    ghost var history: History

    /** The breaker's state is a function of its history. */
    ghost predicate Valid()
      reads this
    {
      && config.Valid()
      && Legal(config, history)
      && consecutiveFailures == Failures(history)
      && openedAt == (if IsOpen(config, history) then LastFailure(history) else None)
      && probeInFlight == Probing(config, history)
    }

    constructor (config: Config)
      requires config.Valid()
      ensures Valid() && history == [] && this.config == config
    {
      this.config := config;
      consecutiveFailures, openedAt, probeInFlight, history := 0, None, false, [];
    }

    /** `check`: false stands for raising CircuitOpen. */
    method Check(now: real) returns (admitted: bool)
      requires Valid()
      modifies this
      ensures Valid()
      ensures admitted == Admits(config, old(history), now)
      ensures history == old(history) + [Checked(now, admitted)]
    {
      admitted := true;
      if openedAt.Some? {
        var elapsed := now - openedAt.value;
        if elapsed < config.recovery || probeInFlight {
          admitted := false;
        } else {
          probeInFlight := true;
        }
      }
      Append(config, history, Checked(now, admitted));
      history := history + [Checked(now, admitted)];
    }

    method RecordSuccess(ghost now: real)
      requires Valid()
      modifies this
      ensures Valid() && history == old(history) + [Succeeded(now)]
    {
      consecutiveFailures := 0;
      openedAt := None;
      probeInFlight := false;
      Append(config, history, Succeeded(now));
      history := history + [Succeeded(now)];
    }

    method RecordFailure(now: real)
      requires Valid()
      modifies this
      ensures Valid() && history == old(history) + [Failed(now)]
    {
      probeInFlight := false;
      consecutiveFailures := consecutiveFailures + 1;
      if consecutiveFailures >= config.threshold {
        openedAt := Some(now);
      }
      Append(config, history, Failed(now));
      history := history + [Failed(now)];
    }
  }

  lemma Append(c: Config, h: History, e: Event)
    requires c.Valid() && Legal(c, h)
    requires e.Checked? ==> e.admitted == Admits(c, h, e.at)
    ensures Legal(c, h + [e])
    ensures Failures(h + [e]) ==
            match e case Succeeded(_) => 0 case Failed(_) => Failures(h) + 1 case Checked(_, _) => Failures(h)
    ensures LastFailure(h + [e]) == if e.Failed? then Some(e.at) else LastFailure(h)
    ensures Probing(c, h + [e]) == (e.Checked? && ((e.admitted && IsOpen(c, h)) || Probing(c, h)))
  {
    assert (h + [e])[..|h|] == h;
  }

  // Safety over all histories.

  /** While the breaker stays open, every admitted check is followed, before the next admitted one, by a
      failure report: so admitted checks are at least `recovery` apart, whoever reports in between. */
  lemma ProbeSpacing(c: Config, h: History, i: nat, j: nat)
    requires c.Valid() && Legal(c, h) && Timed(h) && i < j < |h|
    requires h[i].Checked? && h[i].admitted && IsOpen(c, h[..i])
    requires h[j].Checked? && h[j].admitted
    requires forall k :: i < k < j ==> !h[k].Succeeded?
    ensures h[j].at >= h[i].at + c.recovery
  {
    Prefixes(c, h, j + 1);
    Prefixes(c, h, j);
    var g := h[..j];
    assert h[..j + 1][..j] == g && g[..i] == h[..i];
    AfterProbe(c, g, i);
  }

  lemma {:induction false} AfterProbe(c: Config, g: History, i: nat)
    requires c.Valid() && Timed(g) && i < |g|
    requires g[i].Checked? && g[i].admitted && IsOpen(c, g[..i])
    requires forall k :: i < k < |g| ==> !g[k].Succeeded?
    ensures IsOpen(c, g) && g[i].at <= g[|g| - 1].at
    ensures Probing(c, g) || LastFailure(g).value >= g[i].at
  {
    var n := |g| - 1;
    if i < n {
      assert g[..n][..i] == g[..i];
      AfterProbe(c, g[..n], i);
    }
  }

  function Probes(es: seq<Event>): nat {
    if es == [] then 0
    else Probes(es[..|es| - 1]) + if es[|es| - 1].Checked? && es[|es| - 1].admitted then 1 else 0
  }

  /** An open period that starts with the failure at time `opened` and has lasted until `end` has let
      at most floor((end - opened) / recovery) calls through. */
  lemma ProbesPerOpenPeriod(c: Config, h: History, es: seq<Event>, end: real)
    requires c.Valid() && Legal(c, h + es) && Timed(h + es)
    requires h != [] && h[|h| - 1].Failed? && IsOpen(c, h)
    requires forall i :: 0 <= i < |es| ==> !es[i].Succeeded?
    requires (h + es)[|h + es| - 1].at <= end
    ensures Probes(es) <= Periods(end - h[|h| - 1].at, c.recovery)
  {
    ProbesTakeTime(c, h, es);
    FloorBound(Probes(es), h[|h| - 1].at, end, c.recovery);
  }

  function Periods(span: real, recovery: real): int
    requires recovery > 0.0
  {
    (span / recovery).Floor
  }

  lemma FloorBound(n: nat, start: real, end: real, r: real)
    requires r > 0.0 && Reached(start, n, r) <= end
    ensures n <= Periods(end - start, r)
  {
    var span := end - start;
    ReachedIsProduct(start, n, r);
    var q, m := span / r, n as real;
    assert q * r == span;
    assert (q - m) * r == q * r - m * r;
    if q < m {
      NegativeTimesPositive(q - m, r);
    }
  }

  lemma NegativeTimesPositive(x: real, r: real)
    requires x < 0.0 && r > 0.0
    ensures x * r < 0.0
  {
  }

  lemma {:induction false} ProbesTakeTime(c: Config, h: History, es: seq<Event>)
    requires c.Valid() && Legal(c, h + es) && Timed(h + es)
    requires h != [] && h[|h| - 1].Failed? && IsOpen(c, h)
    requires forall i :: 0 <= i < |es| ==> !es[i].Succeeded?
    ensures IsOpen(c, h + es)
    ensures Reached(h[|h| - 1].at, Probes(es), c.recovery) <= (h + es)[|h + es| - 1].at
    ensures Probing(c, h + es) || Reached(h[|h| - 1].at, Probes(es), c.recovery) <= LastFailure(h + es).value
  {
    var g := h + es;
    if es == [] {
      assert g == h;
    } else {
      var n := |es| - 1;
      var g0 := h + es[..n];
      var e := es[n];
      assert g == g0 + [e] && g[..|g| - 1] == g0;
      ProbesTakeTime(c, h, es[..n]);
      Append(c, g0, e);
    }
  }

  /** n probes, each `recovery` after what came before. */
  ghost function Reached(start: real, n: nat, recovery: real): real {
    if n == 0 then start else Reached(start, n - 1, recovery) + recovery
  }

  lemma {:induction false} ReachedIsProduct(start: real, n: nat, recovery: real)
    ensures Reached(start, n, recovery) == start + n as real * recovery
  {
    if n > 0 {
      ReachedIsProduct(start, n - 1, recovery);
      var m := (n - 1) as real;
      assert n as real == m + 1.0;
      assert (m + 1.0) * recovery == m * recovery + recovery;
    }
  }

  /** A probe that ends without a report, as one that is rate limited does, blocks the breaker: every
      check is refused, at any later time, until some other call reports. After a report, a check
      that comes at least `recovery` later is admitted. */
  lemma {:induction false} LostProbeBlocks(c: Config, h: History, es: seq<Event>)
    requires c.Valid() && IsOpen(c, h) && Probing(c, h)
    requires Legal(c, h + es) && forall i :: 0 <= i < |es| ==> es[i].Checked?
    ensures IsOpen(c, h + es) && Probing(c, h + es)
    ensures forall i :: 0 <= i < |es| ==> !es[i].admitted
    ensures forall r: Event, t: real :: !r.Checked? && t >= r.at + c.recovery ==> Admits(c, h + es + [r], t)
  {
    var g := h + es;
    forall r: Event, t: real | !r.Checked? && t >= r.at + c.recovery ensures Admits(c, g + [r], t) {
      assert (g + [r])[..|g|] == g;
    }
    if es == [] {
      assert g == h;
    } else {
      var n := |es| - 1;
      var g0 := h + es[..n];
      assert g == g0 + [es[n]] && g[..|g| - 1] == g0;
      LostProbeBlocks(c, h, es[..n]);
      Append(c, g0, es[n]);
    }
  }
}
