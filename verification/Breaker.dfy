/**
  The circuit breaker of internal/circuitbreaker/circuitbreaker.go.

  `Machine` is the breaker as a value whose window is a log (`history`, the outcomes since the
  breaker last closed), and `Step` is one call on it. `Breaker` is the breaker as the source
  writes it, driving the ring buffer, and each of its methods is proved to be that step. The
  theorems after it speak about every run: every sequence of calls on a new breaker.

  An instant has two readings, as in Go: `unix` is the wall clock (whole seconds), which files
  outcomes, and `mono` the monotonic clock, which measures elapsed time. Both are read before
  the lock is taken, so neither need be monotone along a run.
 */
module Breakers {
  import opened SlidingWindows

  datatype Instant = Instant(unix: int, mono: int)

  datatype Config = Config(errorThreshold: real, minSamples: int, windowSeconds: int, openTimeout: int)

  datatype Phase = Closed | Open | HalfOpen

  datatype Machine = Machine(phase: Phase, probing: bool, openedAt: Instant, lastUsed: Instant, history: seq<Tick>)

  datatype Call = Allow(now: Instant) | Success(now: Instant) | Failure(weight: real, now: Instant)

  function WindowSize(cfg: Config): nat {
    if cfg.windowSeconds <= 0 || cfg.windowSeconds > 60 then 60 else cfg.windowSeconds
  }

  function New(now: Instant): Machine {
    Machine(Closed, false, Instant(0, 0), now, [])
  }

  /** `n` times `x`. */
  function Times(x: real, n: nat): (r: real)
  {
    if n == 0 then 0.0 else Times(x, n - 1) + x
  }

  lemma {:induction false} TimesIs(x: real, n: nat)
    ensures Times(x, n) == x * n as real
  {
    if n > 0 {
      TimesIs(x, n - 1);
    }
  }

  /** The log holds enough outcomes in the window, and they weigh enough. */
  predicate Trips(cfg: Config, history: seq<Tick>) {
    var held := InWindow(history, WindowSize(cfg));
    held.total >= cfg.minSamples && held.errors >= Times(cfg.errorThreshold, held.total)
  }

  predicate Admits(cfg: Config, m: Machine, now: Instant) {
    match m.phase
    case Closed => true
    case Open => now.mono - m.openedAt.mono >= cfg.openTimeout
    case HalfOpen => !m.probing
  }

  function Step(cfg: Config, m: Machine, c: Call): (m': Machine)
  {
    var u := m.(lastUsed := c.now);
    match c
    case Allow(now) =>
      if m.phase == Closed || !Admits(cfg, m, now) then u else u.(phase := HalfOpen, probing := true)
    case Success(now) =>
      if m.phase == HalfOpen then u.(phase := Closed, probing := false, history := [])
      else u.(history := m.history + [Recorded(0.0, now.unix)])
    case Failure(weight, now) =>
      var r := u.(history := m.history + [Recorded(weight, now.unix)]);
      match m.phase
      case Closed => if Trips(cfg, r.history) then r.(phase := Open, openedAt := now) else r
      case Open => r
      case HalfOpen => r.(phase := Open, probing := false, openedAt := now)
  }

  // ------------------------------------------------- the breaker on its ring

  /** A window just told of an outcome holds at least that one. */
  lemma JustRecorded(h: seq<Tick>, weight: real, at: int, size: nat)
    requires size > 0
    ensures InWindow(h + [Recorded(weight, at)], size).total >= 1
  {
    var k := Recorded(weight, at);
    var last := Horizon(h + [k]);
    AppendTick(h, k);
    assert Fresh(last, last, size);
    TallyAppend(Effective(h), Outcome(last, weight), Window(last, size));
  }

  /** Polling at the instant of the latest record shows what the log without the poll shows. */
  lemma PollAtRecord(h: seq<Tick>, weight: real, at: int, g: seq<Tick>, size: nat)
    requires size > 0
    requires var k := h + [Recorded(weight, at)]; Horizon(g) == Horizon(k) && Effective(g) == Effective(k)
    ensures var k := h + [Recorded(weight, at)];
      && Horizon(g + [Polled(at)]) == Horizon(k)
      && Effective(g + [Polled(at)]) == Effective(k)
      && InWindow(g + [Polled(at)], size) == InWindow(k, size)
      && InWindow(k, size).total >= 1
  {
    AppendTick(g, Polled(at));
    AppendTick(h, Recorded(weight, at));
    JustRecorded(h, weight, at, size);
  }

  lemma RateReaches(errors: real, total: nat, threshold: real)
    requires total > 0
    ensures errors / total as real >= threshold <==> errors >= Times(threshold, total)
  {
    TimesIs(threshold, total);
    var n := total as real;
    var rate := errors / n;
    assert rate * n == errors;
    if rate >= threshold {
      assert (rate - threshold) * n >= 0.0;
    } else {
      assert (threshold - rate) * n > 0.0;
    }
  }

  class Breaker {
    var phase: Phase
    var openedAt: Instant
    var lastUsed: Instant
    var probing: bool
    const window: SlidingWindow
    const threshold: real
    const minSamples: int
    const openTimeout: int
    ghost const cfg: Config
    ghost var history: seq<Tick>

    /** The ring may have been polled more often than outcomes were recorded; that must not show. */
    ghost predicate Valid()
      reads this, window, window.buckets
    {
      && window.Valid()
      && window.size == WindowSize(cfg)
      && threshold == cfg.errorThreshold && minSamples == cfg.minSamples && openTimeout == cfg.openTimeout
      && Horizon(window.history) == Horizon(history)
      && Effective(window.history) == Effective(history)
    }

    ghost function Value(): Machine
      reads this
    {
      Machine(phase, probing, openedAt, lastUsed, history)
    }

    constructor (config: Config, now: Instant)
      ensures Valid() && fresh(window) && fresh(window.buckets)
      ensures cfg == config && Value() == New(now)
    {
      phase, probing, openedAt, lastUsed := Closed, false, Instant(0, 0), now;
      window := new SlidingWindow(config.windowSeconds);
      threshold, minSamples, openTimeout := config.errorThreshold, config.minSamples, config.openTimeout;
      cfg, history := config, [];
    }

    method TryAllow(now: Instant) returns (allowed: bool)
      requires Valid()
      modifies this
      ensures Valid() && Value() == Step(cfg, old(Value()), Allow(now))
      ensures allowed == Admits(cfg, old(Value()), now)
    {
      lastUsed := now;
      match phase {
        case Closed => return true;
        case Open =>
          if now.mono - openedAt.mono >= openTimeout {
            phase := HalfOpen;
            probing := true;
            return true;
          }
          return false;
        case HalfOpen =>
          if !probing {
            probing := true;
            return true;
          }
          return false;
      }
    }

    method RecordSuccess(now: Instant)
      requires Valid() && now.unix > 0
      modifies this, window, window.buckets
      ensures Valid() && Value() == Step(cfg, old(Value()), Success(now))
    {
      lastUsed := now;
      Remember(0.0, now);
      if phase == HalfOpen {
        phase := Closed;
        probing := false;
        window.Reset();
        history := [];
      }
    }

    method RecordError(weight: real, now: Instant)
      requires Valid() && now.unix > 0
      modifies this, window, window.buckets
      ensures Valid() && Value() == Step(cfg, old(Value()), Failure(weight, now))
    {
      lastUsed := now;
      Remember(weight, now);
      match phase {
        case Closed =>
          OpenIfTripped(old(Value()), weight, now);
        case HalfOpen =>
          phase := Open;
          openedAt := now;
          probing := false;
        case Open =>
      }
    }

    /** A closed breaker, that was `m` before the error just remembered, opens if the error trips it. */
    method OpenIfTripped(ghost m: Machine, weight: real, now: Instant)
      requires Valid() && now.unix > 0 && m.phase == Closed
      requires Value() == m.(lastUsed := now, history := m.history + [Recorded(weight, now.unix)])
      modifies this`phase, this`openedAt, window, window.buckets
      ensures Valid() && Value() == Step(cfg, m, Failure(weight, now))
    {
      var trips := Judge(m.history, weight, now);
      if trips {
        phase := Open;
        openedAt := now;
      }
    }

    /** Whether the error just remembered trips the breaker. */
    method Judge(ghost before: seq<Tick>, weight: real, now: Instant) returns (trips: bool)
      requires Valid() && now.unix > 0 && history == before + [Recorded(weight, now.unix)]
      modifies window, window.buckets
      ensures Valid() && trips == Trips(cfg, history)
    {
      PollAtRecord(before, weight, now.unix, window.history, window.size);
      var rate, samples := window.ErrorRate(now.unix);
      RateReaches(InWindow(history, window.size).errors, samples, threshold);
      trips := samples >= minSamples && rate >= threshold;
    }

    method Remember(weight: real, now: Instant)
      requires Valid() && now.unix > 0
      modifies this`history, window, window.buckets
      ensures Valid() && history == old(history) + [Recorded(weight, now.unix)]
    {
      AppendTick(window.history, Recorded(weight, now.unix));
      AppendTick(history, Recorded(weight, now.unix));
      window.Record(weight, now.unix);
      history := history + [Recorded(weight, now.unix)];
    }
  }

  // -------------------------------------------------------------- whole runs

  /** A new breaker, the calls made on it, and what it was before each of them and after the last. */
  datatype Run = Run(cfg: Config, born: Instant, calls: seq<Call>, states: seq<Machine>) {
    ghost predicate Valid() {
      |states| == |calls| + 1 && states[0] == New(born) && forall i: nat :: i < |calls| ==> Leads(i)
    }

    ghost predicate Leads(i: nat)
      requires i < |calls| && |states| == |calls| + 1
    {
      states[i + 1] == Step(cfg, states[i], calls[i])
    }

    /** Call `i` is a request that was let through. */
    ghost predicate Admitted(i: nat)
      requires i < |calls| && |states| == |calls| + 1
    {
      calls[i].Allow? && Admits(cfg, states[i], calls[i].now)
    }

    /** The breaker is in `phase` from state `i` to state `j`. */
    ghost predicate Stays(phase: Phase, i: nat, j: nat)
      requires j < |states|
    {
      forall k: nat :: i <= k <= j ==> states[k].phase == phase
    }

    /** A probe is in flight exactly while the breaker is half open. */
    lemma {:induction false} ProbingIffHalfOpen(i: nat)
      requires Valid() && i <= |calls|
      ensures states[i].probing <==> states[i].phase == HalfOpen
    {
      if i > 0 {
        ProbingIffHalfOpen(i - 1);
        assert Leads(i - 1);
      }
    }

    /** The breaker was out of `phase` at `i` and is in it at `j`: some call in between took it in for good. */
    lemma {:induction false} Entered(phase: Phase, i: nat, j: nat) returns (a: nat)
      requires i <= j < |states| && states[i].phase != phase && states[j].phase == phase
      ensures i <= a < j && states[a].phase != phase && Stays(phase, a + 1, j)
    {
      if states[j - 1].phase != phase {
        a := j - 1;
      } else {
        a := Entered(phase, i, j - 1);
      }
    }

    /** A half-open episode begins with the one request it admits: the call that began the episode
        was let through, from Open, and no later call of the episode is. */
    lemma OneProbePerEpisode(a: nat, j: nat)
      requires Valid() && a < j <= |calls| && states[a].phase != HalfOpen && Stays(HalfOpen, a + 1, j)
      ensures states[a].phase == Open && Admitted(a)
      ensures forall k: nat :: a < k <= j && k < |calls| ==> !Admitted(k)
    {
      assert Leads(a);
      assert states[a + 1].phase == HalfOpen;
      forall k: nat | a < k <= j && k < |calls|
        ensures !Admitted(k)
      {
        assert states[k].phase == HalfOpen;
        ProbingIffHalfOpen(k);
      }
    }

    /** A request is let through if and only if the breaker is closed, or is open and the timeout has passed since the
        instant it remembers. */
    lemma AdmittedExactly(n: nat)
      requires Valid() && n < |calls| && calls[n].Allow?
      ensures Admitted(n) <==>
        || states[n].phase == Closed
        || (states[n].phase == Open && calls[n].now.mono - states[n].openedAt.mono >= cfg.openTimeout)
    {
      ProbingIffHalfOpen(n);
    }

    /** Every call, admitted or not, is a use. */
    lemma LastUsedIs(n: nat)
      requires Valid() && n <= |calls|
      ensures states[n].lastUsed == if n == 0 then born else calls[n - 1].now
    {
      if n > 0 {
        assert Leads(n - 1);
      }
    }

    lemma {:induction false} OpenRemembers(a: nat, n: nat)
      requires Valid() && a < n <= |calls| && Stays(Open, a + 1, n)
      ensures states[n].openedAt == states[a + 1].openedAt
    {
      if a + 1 < n {
        OpenRemembers(a, n - 1);
        assert Leads(n - 1);
        assert states[n - 1].phase == Open && states[n].phase == Open;
      }
    }

    /** While the breaker is open, it has been since some call reported an error, whose instant it
        remembers; a request is let through if and only if the timeout has passed since that instant. */
    lemma OpenHoldsUntilTimeout(n: nat) returns (a: nat)
      requires Valid() && n <= |calls| && states[n].phase == Open
      ensures a < n && calls[a].Failure? && states[a].phase != Open && Stays(Open, a + 1, n)
      ensures states[n].openedAt == calls[a].now
      ensures n < |calls| && calls[n].Allow? ==>
        (Admitted(n) <==> calls[n].now.mono - calls[a].now.mono >= cfg.openTimeout)
    {
      a := Entered(Open, 0, n);
      assert Leads(a);
      assert states[a + 1].phase == Open;
      OpenRemembers(a, n);
    }

    /** Every way back from Open to Closed passes through an admitted probe and then a success. */
    lemma RecoveryNeedsProbe(i: nat, j: nat) returns (probe: nat, close: nat)
      requires Valid() && i < j <= |calls| && states[i].phase == Open && states[j].phase == Closed
      ensures i <= probe < close < j
      ensures states[probe].phase == Open && Admitted(probe)
      ensures Stays(HalfOpen, probe + 1, close) && calls[close].Success? && Stays(Closed, close + 1, j)
    {
      close := Entered(Closed, i, j);
      assert Leads(close);
      assert states[close + 1].phase == Closed;
      probe := Entered(HalfOpen, i, close);
      OneProbePerEpisode(probe, close);
    }

    lemma HalfOpenStep(k: nat)
      requires Valid() && k < |calls| && states[k].phase == HalfOpen
      ensures states[k + 1].phase == HalfOpen <==> calls[k].Allow?
      ensures !Admitted(k)
    {
      assert Leads(k);
      ProbingIffHalfOpen(k);
    }

    ghost predicate OnlyAsked(i: nat, j: nat)
      requires j <= |calls|
    {
      forall k: nat :: i <= k < j ==> calls[k].Allow?
    }

    /** A half-open breaker stays so, and turns every request away, for as long as it is only asked;
        the first outcome recorded ends the episode. */
    lemma {:induction false} HalfOpenWaitsForOutcome(i: nat, j: nat)
      requires Valid() && i <= j <= |calls| && states[i].phase == HalfOpen
      ensures Stays(HalfOpen, i, j) <==> OnlyAsked(i, j)
      ensures OnlyAsked(i, j) ==> forall k: nat :: i <= k < j ==> !Admitted(k)
    {
      if i < j {
        HalfOpenWaitsForOutcome(i, j - 1);
        if OnlyAsked(i, j - 1) {
          assert states[j - 1].phase == HalfOpen;
          HalfOpenStep(j - 1);
        }
      }
    }

    // ------------------------------------------------------- when it trips

    /** The breaker has been closed from `k` to `n`, and `k` is where it became so. */
    ghost predicate ClosedSince(k: nat, n: nat)
      requires n < |states|
    {
      k <= n && Stays(Closed, k, n) && (k > 0 ==> states[k - 1].phase != Closed)
    }

    lemma {:induction false} ClosedHasStart(n: nat) returns (k: nat)
      requires n < |states| && states[n].phase == Closed
      ensures ClosedSince(k, n)
    {
      if n == 0 || states[n - 1].phase != Closed {
        k := n;
      } else {
        k := ClosedHasStart(n - 1);
      }
    }

    lemma LogStep(n: nat)
      requires Valid() && n < |calls| && states[n + 1].phase == Closed
      ensures states[n + 1].history == if states[n].phase == Closed then states[n].history + TicksOf(calls[n]) else []
    {
      assert Leads(n);
      ClosedStep(cfg, states[n], calls[n]);
    }

    /** What a closed breaker remembers is what was reported to it since it closed. */
    lemma {:induction false} LogSinceClose(k: nat, n: nat)
      requires Valid() && n <= |calls| && ClosedSince(k, n)
      ensures states[n].history == Reported(calls, k, n)
    {
      assert states[n].phase == Closed;
      if k < n {
        assert states[n - 1].phase == Closed;
        LogSinceClose(k, n - 1);
        LogStep(n - 1);
      } else if k > 0 {
        LogStep(k - 1);
      }
    }

    /** A closed breaker leaves Closed on a call if and only if that call reports an error and, of the outcomes
        reported since it closed, this one included, at least `minSamples` are in the window and their weight is at
        least the threshold times their number; it then opens. After closing it takes at least `minSamples` new
        outcomes to do so. */
    lemma TripsExactly(k: nat, n: nat) returns (count: nat, weight: real)
      requires Valid() && n < |calls| && ClosedSince(k, n)
      ensures Measures(Reported(calls, k, n + 1), WindowSize(cfg), count, weight)
      ensures states[n + 1].phase != Closed <==>
        calls[n].Failure? && count >= cfg.minSamples && weight >= cfg.errorThreshold * count as real
      ensures states[n + 1].phase != Closed ==> states[n + 1].phase == Open && states[n + 1].openedAt == calls[n].now
      ensures states[n + 1].phase != Closed ==> |Reported(calls, k, n + 1)| >= cfg.minSamples
    {
      count, weight := TripsByTimes(k, n);
      TimesIs(cfg.errorThreshold, count);
    }

    lemma TripsByTimes(k: nat, n: nat) returns (count: nat, weight: real)
      requires Valid() && n < |calls| && ClosedSince(k, n)
      ensures Measures(Reported(calls, k, n + 1), WindowSize(cfg), count, weight)
      ensures states[n + 1].phase != Closed <==>
        calls[n].Failure? && count >= cfg.minSamples && weight >= Times(cfg.errorThreshold, count)
      ensures states[n + 1].phase != Closed ==> states[n + 1].phase == Open && states[n + 1].openedAt == calls[n].now
      ensures states[n + 1].phase != Closed ==> |Reported(calls, k, n + 1)| >= cfg.minSamples
    {
      LogSinceClose(k, n);
      var h := Reported(calls, k, n + 1);
      count, weight := InWindowByCalls(h, WindowSize(cfg));
      assert states[n].phase == Closed;
      TripsAt(n, h, count, weight);
    }

    lemma TripsAt(n: nat, h: seq<Tick>, count: nat, weight: real)
      requires Valid() && n < |calls| && states[n].phase == Closed && h == states[n].history + TicksOf(calls[n])
      requires InWindow(h, WindowSize(cfg)) == Bucket(weight, count)
      ensures states[n + 1].phase != Closed <==>
        calls[n].Failure? && count >= cfg.minSamples && weight >= Times(cfg.errorThreshold, count)
      ensures states[n + 1].phase != Closed ==>
        states[n + 1].phase == Open && states[n + 1].openedAt == calls[n].now && |h| >= cfg.minSamples
    {
      assert Leads(n);
      ClosedTrips(cfg, states[n], calls[n], h, count, weight);
    }
  }

  /** What a call does to a closed breaker whose log it makes `h`. */
  lemma ClosedTrips(cfg: Config, m: Machine, c: Call, h: seq<Tick>, count: nat, weight: real)
    requires m.phase == Closed && h == m.history + TicksOf(c)
    requires InWindow(h, WindowSize(cfg)) == Bucket(weight, count)
    ensures var m' := Step(cfg, m, c);
      && (m'.phase != Closed <==>
          c.Failure? && count >= cfg.minSamples && weight >= Times(cfg.errorThreshold, count))
      && (m'.phase != Closed ==> m'.phase == Open && m'.openedAt == c.now && |h| >= cfg.minSamples)
  {
    TrippingLogLength(cfg, h);
  }

  lemma TrippingLogLength(cfg: Config, h: seq<Tick>)
    ensures Trips(cfg, h) ==> |h| >= cfg.minSamples
  {
    EffectiveWithinHorizon(h);
    TallyBounded(Effective(h), Window(Horizon(h), WindowSize(cfg)));
  }

  function TicksOf(c: Call): seq<Tick> {
    match c
    case Allow(_) => []
    case Success(now) => [Recorded(0.0, now.unix)]
    case Failure(weight, now) => [Recorded(weight, now.unix)]
  }

  /** The outcomes that the calls from number `from` to before number `to` report. */
  ghost function Reported(calls: seq<Call>, from: nat, to: nat): (h: seq<Tick>)
    requires from <= to <= |calls|
  {
    if from == to then [] else Reported(calls, from, to - 1) + TicksOf(calls[to - 1])
  }

  /** A breaker that stays closed adds what is reported to its log; one that closes starts a new log. */
  lemma ClosedStep(cfg: Config, m: Machine, c: Call)
    requires Step(cfg, m, c).phase == Closed
    ensures Step(cfg, m, c).history == if m.phase == Closed then m.history + TicksOf(c) else []
  {
  }
}
