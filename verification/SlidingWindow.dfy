/**
  The sliding window of internal/circuitbreaker/circuitbreaker.go: a ring of one-second
  buckets, indexed modulo its size and cleared lazily as the clock moves.

  The reference definition is a log. A window is described by its `history`, the calls it
  received since the last reset. Every recorded outcome counts for the latest second seen
  up to and including its own call (clocks may step back), and the window holds the outcomes
  of the `size` seconds that end at the latest second seen. The ring is proved to hold, bucket by bucket
  and in total, exactly the tally of that log.
 */
module SlidingWindows {

  datatype Bucket = Bucket(errors: real, total: nat)

  const EMPTY := Bucket(0.0, 0)

  /** A call made on a window: an outcome recorded, or the error rate asked for. */
  datatype Tick = Recorded(weight: real, at: int) | Polled(at: int)

  /** An outcome and the second it counts for. */
  datatype Outcome = Outcome(second: int, weight: real)

  ghost predicate Positive(h: seq<Tick>) {
    forall i :: 0 <= i < |h| ==> h[i].at > 0
  }

  /** The latest second seen, 0 when nothing was seen. */
  function Horizon(h: seq<Tick>): (t: int)
  {
    if h == [] then 0
    else
      var before := Horizon(h[..|h| - 1]);
      if h[|h| - 1].at > before then h[|h| - 1].at else before
  }

  /** The recorded outcomes, each under the latest second seen when it was recorded. */
  function Effective(h: seq<Tick>): (log: seq<Outcome>)
  {
    if h == [] then []
    else
      match h[|h| - 1]
      case Recorded(w, _) => Effective(h[..|h| - 1]) + [Outcome(Horizon(h), w)]
      case Polled(_) => Effective(h[..|h| - 1])
  }

  /** Count and weight of the outcomes that fall in `seconds`. */
  function Tally(log: seq<Outcome>, seconds: set<int>): (b: Bucket)
  {
    if log == [] then EMPTY
    else
      var o := log[|log| - 1];
      var b := Tally(log[..|log| - 1], seconds);
      if o.second in seconds then Bucket(b.errors + o.weight, b.total + 1) else b
  }

  predicate Fresh(second: int, last: int, size: nat) {
    last - size < second <= last
  }

  /** The `size` seconds that end at `last`. */
  function Window(last: int, size: nat): (seconds: set<int>)
  {
    set s | last - size < s <= last && Fresh(s, last, size)
  }

  /** What a window of `size` seconds holds after the calls `h`. */
  function InWindow(h: seq<Tick>, size: nat): (b: Bucket)
  {
    Tally(Effective(h), Window(Horizon(h), size))
  }

  function Plus(a: Bucket, b: Bucket): Bucket {
    Bucket(a.errors + b.errors, a.total + b.total)
  }

  // ---------------------------------------------------------------- the log

  lemma {:induction false} EffectiveWithinHorizon(h: seq<Tick>)
    ensures forall i :: 0 <= i < |Effective(h)| ==> Effective(h)[i].second <= Horizon(h)
    ensures |Effective(h)| <= |h|
  {
    if h != [] {
      EffectiveWithinHorizon(h[..|h| - 1]);
    }
  }

  /** A second that no outcome counts for has an empty tally. */
  lemma {:induction false} TallyOfAbsent(log: seq<Outcome>, seconds: set<int>)
    requires forall i :: 0 <= i < |log| ==> log[i].second !in seconds
    ensures Tally(log, seconds) == EMPTY
  {
    if log != [] {
      TallyOfAbsent(log[..|log| - 1], seconds);
    }
  }

  lemma {:induction false} TallyOfDisjointUnion(log: seq<Outcome>, a: set<int>, b: set<int>)
    requires a !! b
    ensures Tally(log, a + b) == Plus(Tally(log, a), Tally(log, b))
  {
    if log != [] {
      TallyOfDisjointUnion(log[..|log| - 1], a, b);
    }
  }

  lemma {:induction false} TallyBounded(log: seq<Outcome>, seconds: set<int>)
    ensures Tally(log, seconds).total <= |log|
  {
    if log != [] {
      TallyBounded(log[..|log| - 1], seconds);
    }
  }

  lemma TallyAppend(log: seq<Outcome>, o: Outcome, seconds: set<int>)
    ensures Tally(log + [o], seconds) ==
      if o.second in seconds then Plus(Tally(log, seconds), Bucket(o.weight, 1)) else Tally(log, seconds)
  {
    assert (log + [o])[..|log|] == log;
  }

  /** One more call: the horizon is the maximum, and only a record adds an outcome. */
  lemma AppendTick(h: seq<Tick>, k: Tick)
    ensures Horizon(h + [k]) == if k.at > Horizon(h) then k.at else Horizon(h)
    ensures Effective(h + [k]) ==
      if k.Recorded? then Effective(h) + [Outcome(Horizon(h + [k]), k.weight)] else Effective(h)
  {
    assert (h + [k])[..|h|] == h;
  }

  lemma {:induction false} HorizonPositive(h: seq<Tick>)
    requires Positive(h)
    ensures Horizon(h) >= 0
    ensures Horizon(h) == 0 <==> h == []
  {
    if h != [] {
      HorizonPositive(h[..|h| - 1]);
    }
  }

  /** Call `i` recorded an outcome when the latest second seen was one of `seconds`. */
  ghost predicate Counts(h: seq<Tick>, i: int, seconds: set<int>)
    requires 0 <= i < |h|
  {
    h[i].Recorded? && Horizon(h[..i + 1]) in seconds
  }

  ghost function Counting(h: seq<Tick>, seconds: set<int>): (calls: set<int>)
  {
    set i | 0 <= i < |h| && Counts(h, i, seconds)
  }

  lemma CountsAppend(h: seq<Tick>, k: Tick, i: int, seconds: set<int>)
    requires 0 <= i < |h|
    ensures Counts(h + [k], i, seconds) <==> Counts(h, i, seconds)
  {
    assert (h + [k])[..i + 1] == h[..i + 1];
  }

  lemma CountingAppend(h: seq<Tick>, k: Tick, seconds: set<int>)
    ensures Counting(h + [k], seconds) ==
      if k.Recorded? && Horizon(h + [k]) in seconds then Counting(h, seconds) + {|h|} else Counting(h, seconds)
  {
    var h' := h + [k];
    assert h'[..|h| + 1] == h';
    assert Counts(h', |h|, seconds) <==> k.Recorded? && Horizon(h') in seconds;
    forall i: int | 0 <= i < |h|
      ensures i in Counting(h', seconds) <==> i in Counting(h, seconds)
    {
      CountsAppend(h, k, i, seconds);
    }
  }

  /** The tally of the log, said by counting calls. */
  lemma {:induction false} TallyCountsCalls(h: seq<Tick>, seconds: set<int>)
    ensures Tally(Effective(h), seconds).total == |Counting(h, seconds)|
  {
    if h != [] {
      var g, k := h[..|h| - 1], h[|h| - 1];
      assert h == g + [k];
      TallyCountsCalls(g, seconds);
      AppendTick(g, k);
      CountingAppend(g, k, seconds);
      if k.Recorded? {
        TallyAppend(Effective(g), Outcome(Horizon(g + [k]), k.weight), seconds);
      }
    }
  }

  /** The weight that the calls in `Counting` among the first `n` recorded. */
  ghost function WeightOver(h: seq<Tick>, seconds: set<int>, n: nat): (w: real)
    requires n <= |h|
  {
    if n == 0 then 0.0
    else WeightOver(h, seconds, n - 1) + if n - 1 in Counting(h, seconds) then h[n - 1].weight else 0.0
  }

  lemma {:induction false} WeightOverSame(h: seq<Tick>, k: Tick, seconds: set<int>, n: nat)
    requires n <= |h|
    ensures WeightOver(h + [k], seconds, n) == WeightOver(h, seconds, n)
  {
    if n > 0 {
      WeightOverSame(h, k, seconds, n - 1);
      CountingAppend(h, k, seconds);
    }
  }

  /** And the weight of the log, said by the calls. */
  lemma {:induction false} TallyWeighsCalls(h: seq<Tick>, seconds: set<int>)
    ensures Tally(Effective(h), seconds).errors == WeightOver(h, seconds, |h|)
  {
    if h != [] {
      var g, k := h[..|h| - 1], h[|h| - 1];
      assert h == g + [k];
      TallyWeighsCalls(g, seconds);
      WeightOverSame(g, k, seconds, |g|);
      AppendTick(g, k);
      CountingAppend(g, k, seconds);
      if k.Recorded? {
        TallyAppend(Effective(g), Outcome(Horizon(g + [k]), k.weight), seconds);
      }
    }
  }

  /** Of the calls `h`, `count` recorded an outcome in the window of `size` seconds, and these weigh `weight`. */
  ghost predicate Measures(h: seq<Tick>, size: nat, count: nat, weight: real) {
    var seconds := Window(Horizon(h), size);
    count == |Counting(h, seconds)| && weight == WeightOver(h, seconds, |h|)
  }

  /** What a window holds, said by the calls that count. */
  lemma InWindowByCalls(h: seq<Tick>, size: nat) returns (count: nat, weight: real)
    ensures Measures(h, size, count, weight) && InWindow(h, size) == Bucket(weight, count)
  {
    var seconds := Window(Horizon(h), size);
    TallyCountsCalls(h, seconds);
    TallyWeighsCalls(h, seconds);
    count, weight := |Counting(h, seconds)|, WeightOver(h, seconds, |h|);
  }

  lemma WindowIs(last: int, size: nat, second: int)
    ensures second in Window(last, size) <==> last - size < second <= last
  {
    assert Fresh(second, last, size) <==> last - size < second <= last;
  }

  /** The horizon is the latest second of any call. */
  lemma {:induction false} HorizonIsLatest(h: seq<Tick>)
    requires Positive(h) && h != []
    ensures forall i :: 0 <= i < |h| ==> h[i].at <= Horizon(h)
    ensures exists i :: 0 <= i < |h| && h[i].at == Horizon(h)
  {
    var n := |h| - 1;
    if n == 0 {
      assert Horizon(h[..n]) == 0 && h[0].at == Horizon(h);
    } else {
      HorizonIsLatest(h[..n]);
      if h[n].at > Horizon(h[..n]) {
        assert h[n].at == Horizon(h);
      } else {
        var i :| 0 <= i < n && h[..n][i].at == Horizon(h[..n]);
        assert h[i].at == Horizon(h);
      }
    }
  }

  // --------------------------------------------------------------- the ring

  /** How many seconds before the head's second bucket `j` stands for. */
  function Age(head: nat, j: nat, size: nat): (a: nat)
    requires head < size && j < size
    ensures a < size
  {
    if j <= head then head - j else head - j + size
  }

  /** The seconds that the first `n` buckets of a ring stand for. */
  ghost function SecondsOf(last: int, head: nat, size: nat, n: nat): (seconds: set<int>)
    requires head < size && n <= size
  {
    set j: nat | j < n :: last - Age(head, j, size)
  }

  /** The buckets of a ring stand for every second of the window, each once. */
  lemma RingCoversWindow(last: int, head: nat, size: nat)
    requires head < size
    ensures SecondsOf(last, head, size, size) == Window(last, size)
  {
    forall s | s in Window(last, size)
      ensures s in SecondsOf(last, head, size, size)
    {
      assert Fresh(s, last, size);
      var a := last - s;
      var j := if a <= head then head - a else head - a + size;
      assert s == last - Age(head, j, size);
    }
  }

  lemma OneMoreSecond(last: int, head: nat, size: nat, n: nat)
    requires head < size && n < size
    ensures SecondsOf(last, head, size, n + 1) == SecondsOf(last, head, size, n) + {last - Age(head, n, size)}
    ensures last - Age(head, n, size) !in SecondsOf(last, head, size, n)
  {
    forall j: nat | j < n
      ensures last - Age(head, j, size) != last - Age(head, n, size)
    {
    }
  }

  ghost function SumOf(b: seq<Bucket>): (s: Bucket)
  {
    if b == [] then EMPTY else Plus(SumOf(b[..|b| - 1]), b[|b| - 1])
  }

  /** Adding up the buckets of a ring tallies the seconds they stand for. */
  lemma {:induction false} RingSum(log: seq<Outcome>, last: int, head: nat, size: nat, b: seq<Bucket>)
    requires head < size && |b| <= size
    requires forall j :: 0 <= j < |b| ==> b[j] == Tally(log, {last - Age(head, j, size)})
    ensures SumOf(b) == Tally(log, SecondsOf(last, head, size, |b|))
  {
    if b == [] {
      TallyOfAbsent(log, SecondsOf(last, head, size, 0));
    } else {
      var n := |b| - 1;
      RingSum(log, last, head, size, b[..n]);
      var s := last - Age(head, n, size);
      OneMoreSecond(last, head, size, n);
      TallyOfDisjointUnion(log, SecondsOf(last, head, size, n), {s});
    }
  }

  lemma WrapOnce(x: nat, size: nat)
    requires 0 < size && x < 2 * size
    ensures x % size == if x < size then x else x - size
  {
    if x >= size {
      assert x == size * 1 + (x - size);
    }
  }

  /** Bucket by bucket, a ring whose head stands for second `last` holds the tally of a log. */
  ghost predicate Tallies(ring: seq<Bucket>, log: seq<Outcome>, last: int, head: nat)
    requires head < |ring|
  {
    forall j :: 0 <= j < |ring| ==> ring[j] == Tally(log, {last - Age(head, j, |ring|)})
  }

  ghost predicate Holds(ring: seq<Bucket>, h: seq<Tick>, head: nat)
    requires head < |ring|
  {
    Tallies(ring, Effective(h), Horizon(h), head)
  }

  /** The total over a ring is the tally of the log over the window. */
  lemma RingTotal(ring: seq<Bucket>, h: seq<Tick>, head: nat)
    requires head < |ring| && Holds(ring, h, head)
    ensures SumOf(ring) == InWindow(h, |ring|)
  {
    RingSum(Effective(h), Horizon(h), head, |ring|, ring);
    RingCoversWindow(Horizon(h), head, |ring|);
  }

  lemma EmptyRingTallies(ring: seq<Bucket>, last: int, head: nat)
    requires head < |ring| && forall j :: 0 <= j < |ring| ==> ring[j] == EMPTY
    ensures Tallies(ring, [], last, head)
  {
  }

  /** Moving the head on to `now`: the buckets passed over now stand for later seconds, of which the log
      knows nothing; every other bucket stands for the second it stood for. */
  lemma RotatedRing(before: seq<Bucket>, after: seq<Bucket>, log: seq<Outcome>, last: int, now: int, head: nat)
    requires head < |before| == |after| && now > last && Tallies(before, log, last, head)
    requires forall i :: 0 <= i < |log| ==> log[i].second <= last
    requires forall j :: 0 <= j < |before| ==>
      after[j] == if |before| - Age(head, j, |before|) <= now - last then EMPTY else before[j]
    ensures Tallies(after, log, now, (head + (now - last)) % |before|)
  {
    var size, gap := |before|, now - last;
    var head' := (head + gap) % size;
    forall j | 0 <= j < size
      ensures after[j] == Tally(log, {now - Age(head', j, size)})
    {
      RotatedAge(head, gap, j, size);
      if now - Age(head', j, size) > last {
        TallyOfAbsent(log, {now - Age(head', j, size)});
      }
    }
  }

  lemma RotatedAge(head: nat, gap: nat, j: nat, size: nat)
    requires head < size && j < size
    ensures var a := Age((head + gap) % size, j, size);
      if size - Age(head, j, size) <= gap then a < gap else a == Age(head, j, size) + gap
  {
    if gap < size {
      WrapOnce(head + gap, size);
    }
  }

  /** An outcome of the head's second counts in the head's bucket and in no other. */
  lemma RecordedRing(ring: seq<Bucket>, log: seq<Outcome>, last: int, head: nat, weight: real)
    requires head < |ring| && Tallies(ring, log, last, head)
    ensures Tallies(ring[head := Plus(ring[head], Bucket(weight, 1))], log + [Outcome(last, weight)], last, head)
  {
    forall j | 0 <= j < |ring|
      ensures ring[head := Plus(ring[head], Bucket(weight, 1))][j] ==
              Tally(log + [Outcome(last, weight)], {last - Age(head, j, |ring|)})
    {
      RecordedBucket(log, last, weight, head, j, |ring|);
    }
  }

  lemma RecordedBucket(log: seq<Outcome>, last: int, weight: real, head: nat, j: nat, size: nat)
    requires head < size && j < size
    ensures var second := last - Age(head, j, size);
      Tally(log + [Outcome(last, weight)], {second}) ==
      if j == head then Plus(Tally(log, {second}), Bucket(weight, 1)) else Tally(log, {second})
  {
    TallyAppend(log, Outcome(last, weight), {last - Age(head, j, size)});
  }

  lemma RecordedHolds(ring: seq<Bucket>, h: seq<Tick>, weight: real, now: int, head: nat)
    requires head < |ring| && Holds(ring, h + [Polled(now)], head)
    ensures Horizon(h + [Recorded(weight, now)]) == Horizon(h + [Polled(now)])
    ensures Holds(ring[head := Plus(ring[head], Bucket(weight, 1))], h + [Recorded(weight, now)], head)
  {
    var p := h + [Polled(now)];
    AppendTick(h, Polled(now));
    AppendTick(h, Recorded(weight, now));
    RecordedRing(ring, Effective(p), Horizon(p), head, weight);
  }

  /** The `gap` buckets after the head were emptied. */
  ghost predicate Cleared(before: seq<Bucket>, after: seq<Bucket>, head: nat, gap: int)
    requires head < |before|
  {
    |after| == |before| && forall j :: 0 <= j < |before| ==>
      after[j] == if |before| - Age(head, j, |before|) <= gap then EMPTY else before[j]
  }

  /** A poll that moves nothing: the first one of an empty ring, or one that is not later than the latest. */
  lemma PolledAgain(ring: seq<Bucket>, h: seq<Tick>, now: int, head: nat)
    requires head < |ring| && Holds(ring, h, head) && Positive(h) && now > 0
    ensures Horizon(h + [Polled(now)]) == if now > Horizon(h) then now else Horizon(h)
    ensures Horizon(h) == 0 || now <= Horizon(h) ==> Holds(ring, h + [Polled(now)], head)
    ensures Horizon(h) >= 0
  {
    AppendTick(h, Polled(now));
    HorizonPositive(h);
    if Horizon(h) == 0 {
      EmptyRingTallies(ring, now, head);
    }
  }

  /** The index `gap` places on from the head. */
  function Ahead(head: nat, gap: nat, size: nat): (i: nat)
    requires size > 0
    ensures i < size
  {
    (head + gap) % size
  }

  /** One that does. Beyond the size of the ring it makes no difference how many buckets are emptied. */
  lemma RotatedHolds(before: seq<Bucket>, after: seq<Bucket>, h: seq<Tick>, now: int, head: nat)
    requires head < |before| && Holds(before, h, head) && now > Horizon(h)
    requires var gap := now - Horizon(h); Cleared(before, after, head, if gap < |before| then gap else |before|)
    ensures Holds(after, h + [Polled(now)], Ahead(head, now - Horizon(h), |before|))
  {
    AppendTick(h, Polled(now));
    EffectiveWithinHorizon(h);
    RotatedRing(before, after, Effective(h), Horizon(h), now, head);
  }

  class SlidingWindow {
    const buckets: array<Bucket>
    const size: nat
    var head: nat
    var headTime: int
    ghost var history: seq<Tick>

    ghost predicate Valid()
      reads this, buckets
    {
      && buckets.Length == 60
      && 1 <= size <= 60
      && head < size
      && Positive(history)
      && headTime == Horizon(history)
      && Holds(buckets[..size], history, head)
    }

    constructor (windowSeconds: int)
      ensures Valid() && fresh(buckets)
      ensures history == []
      ensures size == if windowSeconds <= 0 || windowSeconds > 60 then 60 else windowSeconds
    {
      buckets := new Bucket[60](_ => EMPTY);
      size := if windowSeconds <= 0 || windowSeconds > 60 then 60 else windowSeconds;
      head, headTime, history := 0, 0, [];
      new;
      EmptyRingTallies(buckets[..size], 0, 0);
    }

    method Advance(nowSec: int)
      requires Valid() && nowSec > 0
      modifies this, buckets
      ensures Valid() && history == old(history) + [Polled(nowSec)]
    {
      PolledAgain(buckets[..size], history, nowSec, head);
      history := history + [Polled(nowSec)];
      if headTime == 0 {
        headTime := nowSec;
        return;
      }
      var gap := nowSec - headTime;
      if gap <= 0 {
        return;
      }
      Rotate(gap, old(history));
      headTime := nowSec;
    }

    /** Moves the head on by `gap`. */
    method Rotate(gap: int, ghost before: seq<Tick>)
      requires head < size <= buckets.Length && gap > 0 && Holds(buckets[..size], before, head)
      modifies this`head, buckets
      ensures head < size && Holds(buckets[..size], before + [Polled(Horizon(before) + gap)], head)
    {
      ghost var ring, now := buckets[..size], Horizon(before) + gap;
      Clear(if gap < size then gap else size);
      RotatedHolds(ring, buckets[..size], before, now, head);
      head := Ahead(head, gap, size);
    }

    /** Empties the `count` buckets after the head. */
    method Clear(count: nat)
      requires head < size <= buckets.Length && count <= size
      modifies buckets
      ensures Cleared(old(buckets[..size]), buckets[..size], head, count)
    {
      for i := 0 to count
        invariant forall j :: 0 <= j < size ==>
          buckets[j] == if size - Age(head, j, size) <= i then EMPTY else old(buckets[j])
      {
        WrapOnce(head + 1 + i, size);
        var idx := (head + 1 + i) % size;
        buckets[idx] := EMPTY;
      }
    }

    method Record(weight: real, nowSec: int)
      requires Valid() && nowSec > 0
      modifies this, buckets
      ensures Valid() && history == old(history) + [Recorded(weight, nowSec)]
    {
      Advance(nowSec);
      RecordAtHead(old(history), weight, nowSec);
    }

    /** The head has just moved to the second of the outcome. */
    method RecordAtHead(ghost before: seq<Tick>, weight: real, nowSec: int)
      requires Valid() && nowSec > 0 && Positive(before) && history == before + [Polled(nowSec)]
      modifies this`history, buckets
      ensures Valid() && history == before + [Recorded(weight, nowSec)]
    {
      RecordedHolds(buckets[..size], before, weight, nowSec, head);
      Count(weight);
      history := before + [Recorded(weight, nowSec)];
    }

    method Count(weight: real)
      requires head < size <= buckets.Length
      modifies buckets
      ensures buckets[..size] == old(buckets[..size])[head := Plus(old(buckets[head]), Bucket(weight, 1))]
    {
      buckets[head] := Bucket(buckets[head].errors + weight, buckets[head].total + 1);
    }

    /** The error rate is the tally of the log over the window. */
    method ErrorRate(nowSec: int) returns (rate: real, samples: nat)
      requires Valid() && nowSec > 0
      modifies this, buckets
      ensures Valid() && history == old(history) + [Polled(nowSec)]
      ensures samples == InWindow(history, size).total
      ensures rate == if samples == 0 then 0.0 else InWindow(history, size).errors / samples as real
    {
      Advance(nowSec);
      var totalErrors: real, totalRequests: nat := 0.0, 0;
      for i := 0 to size
        invariant Bucket(totalErrors, totalRequests) == SumOf(buckets[..i])
      {
        assert buckets[..i + 1][..i] == buckets[..i];
        totalErrors := totalErrors + buckets[i].errors;
        totalRequests := totalRequests + buckets[i].total;
      }
      RingTotal(buckets[..size], history, head);
      if totalRequests == 0 {
        return 0.0, 0;
      }
      return totalErrors / totalRequests as real, totalRequests;
    }

    method Reset()
      requires Valid()
      modifies this, buckets
      ensures Valid() && history == []
    {
      for i := 0 to size
        invariant forall j :: 0 <= j < i ==> buckets[j] == EMPTY
      {
        buckets[i] := EMPTY;
      }
      headTime := 0;
      head := 0;
      history := [];
      EmptyRingTallies(buckets[..size], 0, 0);
    }
  }

  // ------------------------------------------------------------- whole runs

  datatype WindowCall = Record(weight: real, at: int) | Poll(at: int) | Reset

  /** The calls since the last reset. */
  ghost function SinceReset(calls: seq<WindowCall>): (h: seq<Tick>)
  {
    if calls == [] then []
    else
      match calls[|calls| - 1]
      case Record(w, t) => SinceReset(calls[..|calls| - 1]) + [Recorded(w, t)]
      case Poll(t) => SinceReset(calls[..|calls| - 1]) + [Polled(t)]
      case Reset => []
  }

  /** Any sequence of calls at positive seconds, in any clock order, then a question at `now`. */
  method Replay(windowSeconds: int, calls: seq<WindowCall>, now: int) returns (rate: real, samples: nat)
    requires now > 0 && forall i :: 0 <= i < |calls| ==> calls[i].Reset? || calls[i].at > 0
    ensures
      var size := if windowSeconds <= 0 || windowSeconds > 60 then 60 else windowSeconds;
      var truth := InWindow(SinceReset(calls) + [Polled(now)], size);
      && samples == truth.total
      && rate * samples as real == truth.errors
      && (samples == 0 ==> rate == 0.0)
  {
    var w := new SlidingWindow(windowSeconds);
    for i := 0 to |calls|
      invariant fresh(w) && fresh(w.buckets) && w.Valid() && w.history == SinceReset(calls[..i])
    {
      assert calls[..i + 1][..i] == calls[..i];
      match calls[i] {
        case Record(weight, t) => w.Record(weight, t);
        case Poll(t) => var _, _ := w.ErrorRate(t);
        case Reset => w.Reset();
      }
    }
    assert calls[..|calls|] == calls;
    rate, samples := w.ErrorRate(now);
    EmptyTallyWeighsNothing(Effective(w.history), Window(Horizon(w.history), w.size));
  }

  lemma {:induction false} EmptyTallyWeighsNothing(log: seq<Outcome>, seconds: set<int>)
    ensures Tally(log, seconds).total == 0 ==> Tally(log, seconds).errors == 0.0
  {
    if log != [] {
      EmptyTallyWeighsNothing(log[..|log| - 1], seconds);
    }
  }
}
