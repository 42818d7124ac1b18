/**
  Quota accounting: the tracker of internal/ratelimit/quota.go, and the whole path a cost takes.

  `recordUsage` (internal/server/proxy.go) adds a cost to the in-memory counter and then offers
  the record to the recorder; the recorder's batches reach the database, or fail to; and a sync
  overwrites the counter with the database sum it read earlier. `Ledger` is all of that as one state,
  and each of those is a step that any number of threads interleave. The read and the write of a sync
  are separate steps.
 */
module Accounting {
  import opened Basics
  import opened Usage
  import opened UsageRecorders

  datatype Entry = Entry(limit: real, consumed: real)

  type Budgets = map<string, Entry>

  /** What the tracker holds against a key. */
  function Counter(b: Budgets, key: string): real {
    if key in b then b[key].consumed else 0.0
  }

  function Limit(b: Budgets, key: string): real {
    if key in b then b[key].limit else 0.0
  }

  /** Nothing but `key` changes hands. */
  ghost predicate OthersKept(b: Budgets, b': Budgets, key: string) {
    forall k :: k != key ==> (k in b' <==> k in b) && (k in b ==> b'[k] == b[k])
  }

  function Preloaded(b: Budgets, key: string, limit: real): (b': Budgets)
    ensures key in b' && Counter(b', key) == Counter(b, key) && OthersKept(b, b', key)
    ensures Limit(b', key) == if key in b then b[key].limit else limit
  {
    if key in b then b else b[key := Entry(limit, 0.0)]
  }

  /** A key passes if it has no limit or its counter is below it. */
  predicate Passes(b: Budgets, key: string, limit: real) {
    limit <= 0.0 || Counter(b, key) < limit
  }

  function Checked(b: Budgets, key: string, limit: real): (b': Budgets)
    ensures Counter(b', key) == Counter(b, key) && OthersKept(b, b', key)
    ensures limit > 0.0 ==> key in b' && Limit(b', key) == limit
    ensures limit <= 0.0 ==> b' == b
  {
    if limit <= 0.0 then b else b[key := Entry(limit, Counter(b, key))]
  }

  function Charged(b: Budgets, key: string, cost: real): (b': Budgets)
    ensures key in b' && Counter(b', key) == Counter(b, key) + cost
    ensures Limit(b', key) == Limit(b, key) && OthersKept(b, b', key)
  {
    b[key := Entry(Limit(b, key), Counter(b, key) + cost)]
  }

  function Synced(b: Budgets, key: string, total: real): (b': Budgets)
    ensures key in b' && Counter(b', key) == total
    ensures Limit(b', key) == Limit(b, key) && OthersKept(b, b', key)
  {
    b[key := Entry(Limit(b, key), total)]
  }

  class QuotaTracker {
    var budgets: Budgets

    constructor ()
      ensures budgets == map[]
    {
      budgets := map[];
    }

    method Preload(key: string, limit: real)
      modifies this
      ensures budgets == Preloaded(old(budgets), key, limit)
    {
      if key !in budgets {
        budgets := budgets[key := Entry(limit, 0.0)];
      }
    }

    method Check(key: string, limit: real) returns (ok: bool)
      modifies this
      ensures ok == Passes(old(budgets), key, limit)
      ensures budgets == Checked(old(budgets), key, limit)
    {
      if limit <= 0.0 {
        return true;
      }
      if key !in budgets {
        budgets := budgets[key := Entry(limit, 0.0)];
        return true;
      }
      budgets := budgets[key := budgets[key].(limit := limit)];
      return budgets[key].consumed < limit;
    }

    method Consume(key: string, costUSD: real)
      modifies this
      ensures budgets == Charged(old(budgets), key, costUSD)
    {
      var e := if key in budgets then budgets[key] else Entry(0.0, 0.0);
      budgets := budgets[key := e.(consumed := e.consumed + costUSD)];
    }

    /** `total` is what the store answered; no answer leaves the tracker alone. */
    method Sync(key: string, total: Option<real>) returns (ok: bool)
      modifies this
      ensures ok == total.Some?
      ensures budgets == if ok then Synced(old(budgets), key, total.value) else old(budgets)
    {
      if total.None? {
        return false;
      }
      var e := if key in budgets then budgets[key] else Entry(0.0, 0.0);
      budgets := budgets[key := e.(consumed := total.value)];
      return true;
    }

    /** Syncs the tracked keys, in no particular order, up to the first the store cannot answer for. */
    method SyncAll(store: string -> Option<real>) returns (ok: bool)
      modifies this
      ensures ok <==> forall k :: k in old(budgets) ==> store(k).Some?
      ensures budgets.Keys == old(budgets).Keys
      ensures forall k :: k in budgets ==> budgets[k].limit == old(budgets)[k].limit
      ensures forall k :: k in budgets ==>
        budgets[k].consumed == old(budgets)[k].consumed || store(k) == Some(budgets[k].consumed)
      ensures ok ==> forall k :: k in budgets ==> store(k) == Some(budgets[k].consumed)
    {
      var left := budgets.Keys;
      while left != {}
        invariant left <= budgets.Keys == old(budgets).Keys
        invariant forall k :: k in budgets ==> budgets[k].limit == old(budgets)[k].limit
        invariant forall k :: k in left ==> budgets[k] == old(budgets)[k]
        invariant forall k :: k in budgets && k !in left ==> store(k) == Some(budgets[k].consumed)
        decreases left
      {
        var k :| k in left;
        left := left - {k};
        var done := Sync(k, store(k));
        if !done {
          return false;
        }
      }
      return true;
    }
  }

  // --------------------------------------------------------- the whole path

  datatype Reading = Reading(key: string, total: real)

  datatype Ledger = Ledger(
    budgets: Budgets, inflight: seq<UsageRecord>, pipe: Pipe,
    db: seq<UsageRecord>, failed: seq<UsageRecord>, readings: map<nat, Reading>)

  datatype Step =
    | Spend(r: UsageRecord)                // recordUsage, budgeted key: the counter goes up
    | Serve(r: UsageRecord)                // recordUsage, no budget: the record costs nothing
    | Offer(i: nat)                        // recordUsage: one of the records in flight is offered to the recorder
    | Recorder(e: Event, stored: bool)     // the recorder moves; a batch it hands over is stored, or is not
    | SyncRead(thread: nat, key: string)   // Sync: the database sum is read
    | SyncWrite(thread: nat)               // Sync: and later written to the counter
    | Admit(key: string, limit: real)      // rateLimit: the counter is checked
    | Seed(key: string, limit: real)       // the sync worker preloads a budgeted key

  function Cost(rs: seq<UsageRecord>, key: string): (c: real)
  {
    if rs == [] then 0.0
    else Cost(rs[..|rs| - 1], key) + if rs[|rs| - 1].keyID == key then rs[|rs| - 1].costUSD else 0.0
  }

  function Move(s: Ledger, e: Event, stored: bool): Ledger {
    var p := PipeStep(s.pipe, e);
    if |p.handed| <= |s.pipe.handed| then s.(pipe := p)
    else
      var batch := p.handed[|p.handed| - 1];
      if stored then s.(pipe := p, db := s.db + batch) else s.(pipe := p, failed := s.failed + batch)
  }

  /** One step; one that cannot be taken changes nothing. */
  function Apply(s: Ledger, step: Step): (s': Ledger)
  {
    match step
    case Spend(r) =>
      s.(budgets := Charged(s.budgets, r.keyID, r.costUSD), inflight := s.inflight + [r])
    case Serve(r) => s.(inflight := s.inflight + [r.(costUSD := 0.0)])
    case Offer(i) =>
      if i >= |s.inflight| then s
      else Move(s.(inflight := s.inflight[..i] + s.inflight[i + 1..]), Produce(s.inflight[i]), true)
    case Recorder(e, stored) => if e.Produce? then s else Move(s, e, stored)
    case SyncRead(t, key) =>
      if t in s.readings then s else s.(readings := s.readings[t := Reading(key, Cost(s.db, key))])
    case SyncWrite(t) =>
      if t !in s.readings then s
      else s.(budgets := Synced(s.budgets, s.readings[t].key, s.readings[t].total), readings := s.readings - {t})
    case Admit(key, limit) => s.(budgets := Checked(s.budgets, key, limit))
    case Seed(key, limit) => s.(budgets := Preloaded(s.budgets, key, limit))
  }

  /** After a restart the database is as it was and everything in memory is new. */
  function Restarted(db: seq<UsageRecord>): Ledger {
    Ledger(map[], [], NEW_PIPE, db, [], map[])
  }

  /** `run` is what a restarted gateway goes through under `steps`: `run[n]` is the ledger before step `n`. */
  ghost predicate IsRun(db: seq<UsageRecord>, steps: seq<Step>, run: seq<Ledger>) {
    |run| == |steps| + 1 && run[0] == Restarted(db) && forall i: nat :: i < |steps| ==> Leads(steps, run, i)
  }

  ghost predicate Leads(steps: seq<Step>, run: seq<Ledger>, i: nat)
    requires i < |steps| && |run| == |steps| + 1
  {
    run[i + 1] == Apply(run[i], steps[i])
  }

  ghost function SpentBy(step: Step, key: string): real {
    if step.Spend? && step.r.keyID == key then step.r.costUSD else 0.0
  }

  /** What a key really spent before step `n`: what the database knew at the start and what was spent since. */
  ghost function TrueSpend(db: seq<UsageRecord>, steps: seq<Step>, n: nat, key: string): (c: real)
    requires n <= |steps|
  {
    if n == 0 then Cost(db, key) else TrueSpend(db, steps, n - 1, key) + SpentBy(steps[n - 1], key)
  }

  /** What was spent and is not in the database: under way, or lost to a full channel or a failed insert. */
  ghost function NotStored(s: Ledger, key: string): real {
    Cost(s.inflight, key) + Cost(s.pipe.chan, key) + Cost(s.pipe.buf, key) +
    Cost(s.pipe.dropped, key) + Cost(s.failed, key)
  }

  lemma {:induction false} CostConcat(a: seq<UsageRecord>, b: seq<UsageRecord>, key: string)
    ensures Cost(a + b, key) == Cost(a, key) + Cost(b, key)
  {
    if b == [] {
      assert a + b == a;
    } else {
      CostConcat(a, b[..|b| - 1], key);
      assert (a + b)[..|a| + |b| - 1] == a + b[..|b| - 1];
    }
  }

  lemma CostOfOne(r: UsageRecord, key: string)
    ensures Cost([r], key) == if r.keyID == key then r.costUSD else 0.0
  {
    assert [r][..0] == [];
  }

  /** A total over records: of a list in two parts, the total of the one and of the other. */
  type Measure = seq<UsageRecord> -> real

  ghost predicate Additive(m: Measure) {
    m([]) == 0.0 && forall a, b :: m(a + b) == m(a) + m(b)
  }

  /** All the records there are: stored, under way or lost. */
  ghost function Held(m: Measure, s: Ledger): real {
    m(s.db) + (m(s.inflight) + m(s.pipe.chan) + m(s.pipe.buf) + m(s.pipe.dropped) + m(s.failed))
  }

  lemma TakenOut(m: Measure, rs: seq<UsageRecord>, i: nat)
    requires Additive(m) && i < |rs|
    ensures m(rs[..i] + rs[i + 1..]) + m([rs[i]]) == m(rs)
  {
    assert rs == rs[..i] + [rs[i]] + rs[i + 1..];
  }

  /** The batch in the buffer is stored, or is not. */
  function Handed(s: Ledger, stored: bool): Ledger {
    if stored then s.(db := s.db + s.pipe.buf) else s.(failed := s.failed + s.pipe.buf)
  }

  lemma HandOverKeeps(m: Measure, s: Ledger, stored: bool, phase: Phase)
    requires Additive(m)
    ensures Held(m, Handed(s, stored).(pipe := HandOver(s.pipe).(phase := phase))) == Held(m, s)
  {
  }

  lemma ReceiveKeeps(m: Measure, s: Ledger, stored: bool)
    requires Additive(m) && s.pipe.chan != [] && s.pipe.phase != Stopped
    ensures Held(m, Move(s, Receive, stored)) == Held(m, s)
  {
    var p := s.pipe;
    var t := s.(pipe := p.(chan := p.chan[1..], buf := p.buf + [p.chan[0]]));
    assert Held(m, t) == Held(m, s) by {
      assert p.chan == [p.chan[0]] + p.chan[1..];
    }
    if |t.pipe.buf| >= BATCH_SIZE {
      HandOverKeeps(m, t, stored, p.phase);
      assert Move(s, Receive, stored) == Handed(t, stored).(pipe := HandOver(t.pipe));
    } else {
      assert Move(s, Receive, stored) == t;
    }
  }

  /** The recorder neither makes nor loses anything: what is produced, it holds. */
  lemma MoveKeeps(m: Measure, s: Ledger, e: Event, stored: bool)
    requires Additive(m)
    ensures Held(m, Move(s, e, stored)) == Held(m, s) + if e.Produce? then m([e.r]) else 0.0
  {
    match e {
      case Produce(r) =>
      case Receive =>
        if s.pipe.chan != [] && s.pipe.phase != Stopped {
          ReceiveKeeps(m, s, stored);
        }
      case Cancel =>
      case _ =>
        HandOverKeeps(m, s, stored, if e == Finish then Stopped else s.pipe.phase);
    }
  }

  /** What a step brings in: a request that was served, at its cost or at none. */
  ghost function Brought(m: Measure, step: Step): real {
    match step
    case Spend(r) => m([r])
    case Serve(r) => m([r.(costUSD := 0.0)])
    case _ => 0.0
  }

  /** Whatever is counted, a step changes where records are and no total beyond what it brings in. */
  lemma StepKeeps(m: Measure, s: Ledger, step: Step)
    requires Additive(m)
    ensures Held(m, Apply(s, step)) == Held(m, s) + Brought(m, step)
  {
    match step {
      case Offer(i) =>
        if i < |s.inflight| {
          TakenOut(m, s.inflight, i);
          MoveKeeps(m, s.(inflight := s.inflight[..i] + s.inflight[i + 1..]), Produce(s.inflight[i]), true);
        }
      case Recorder(e, stored) => MoveKeeps(m, s, e, stored);
      case _ =>
    }
  }

  ghost function CostTo(key: string): Measure {
    rs => Cost(rs, key)
  }

  lemma CostAdds(key: string)
    ensures Additive(CostTo(key))
  {
    forall a, b
      ensures CostTo(key)(a + b) == CostTo(key)(a) + CostTo(key)(b)
    {
      CostConcat(a, b, key);
    }
  }

  lemma StepConservesMoney(s: Ledger, step: Step, key: string)
    ensures Cost(Apply(s, step).db, key) + NotStored(Apply(s, step), key) ==
            Cost(s.db, key) + NotStored(s, key) + SpentBy(step, key)
  {
    CostAdds(key);
    StepKeeps(CostTo(key), s, step);
    BroughtIsSpent(step, key);
  }

  lemma BroughtIsSpent(step: Step, key: string)
    ensures Brought(CostTo(key), step) == SpentBy(step, key)
  {
    match step {
      case Spend(r) => CostOfOne(r, key);
      case Serve(r) => CostOfOne(r.(costUSD := 0.0), key);
      case _ =>
    }
  }

  lemma StepConservesRecords(s: Ledger, step: Step)
    requires Conserved(s.pipe)
    ensures Conserved(Apply(s, step).pipe)
  {
    match step {
      case Offer(i) =>
        if i < |s.inflight| {
          StepConserves(s.pipe, Produce(s.inflight[i]));
        }
      case Recorder(e, _) => StepConserves(s.pipe, e);
      case _ =>
    }
  }

  lemma LedgerBalances(db: seq<UsageRecord>, steps: seq<Step>, run: seq<Ledger>, i: nat, key: string)
    requires IsRun(db, steps, run) && i < |steps| && Conserved(run[i].pipe)
    ensures Conserved(run[i + 1].pipe)
    ensures Cost(run[i + 1].db, key) + NotStored(run[i + 1], key) ==
            Cost(run[i].db, key) + NotStored(run[i], key) + SpentBy(steps[i], key)
  {
    StepConservesMoney(run[i], steps[i], key);
    StepConservesRecords(run[i], steps[i]);
    assert Leads(steps, run, i);
  }

  /** In every run, what a key spent is what the database holds plus what is under way or lost. */
  lemma {:induction false} SpendIsAccountedFor(
      db: seq<UsageRecord>, steps: seq<Step>, run: seq<Ledger>, n: nat, key: string)
    requires IsRun(db, steps, run) && n <= |steps|
    ensures Conserved(run[n].pipe)
    ensures TrueSpend(db, steps, n, key) == Cost(run[n].db, key) + NotStored(run[n], key)
  {
    if n > 0 {
      SpendIsAccountedFor(db, steps, run, n - 1, key);
      LedgerBalances(db, steps, run, n - 1, key);
    }
  }

  // ------------------------------------------------------------- the drift

  ghost predicate OverwritesIn(s: Ledger, step: Step, key: string) {
    step.SyncWrite? && step.thread in s.readings && s.readings[step.thread].key == key
  }

  /** Step `i` overwrites the counter of `key`. */
  ghost predicate Overwrites(steps: seq<Step>, run: seq<Ledger>, i: nat, key: string)
    requires i < |steps| <= |run|
  {
    OverwritesIn(run[i], steps[i], key)
  }

  lemma CounterStep(s: Ledger, step: Step, key: string)
    requires !OverwritesIn(s, step, key)
    ensures Counter(Apply(s, step).budgets, key) == Counter(s.budgets, key) + SpentBy(step, key)
  {
  }

  /** While nothing overwrites it, the counter moves with the spend. */
  lemma {:induction false} CounterFollows(
      db: seq<UsageRecord>, steps: seq<Step>, run: seq<Ledger>, from: nat, to: nat, key: string)
    requires IsRun(db, steps, run) && from <= to <= |steps|
    requires forall i: nat :: from <= i < to ==> !Overwrites(steps, run, i, key)
    ensures Counter(run[to].budgets, key) - TrueSpend(db, steps, to, key) ==
            Counter(run[from].budgets, key) - TrueSpend(db, steps, from, key)
  {
    if from < to {
      CounterFollows(db, steps, run, from, to - 1, key);
      assert !Overwrites(steps, run, to - 1, key);
      CounterStep(run[to - 1], steps[to - 1], key);
      assert Leads(steps, run, to - 1);
    }
  }

  lemma ReadingStep(s: Ledger, step: Step, t: nat)
    requires t in s.readings && step != SyncWrite(t)
    ensures t in Apply(s, step).readings && Apply(s, step).readings[t] == s.readings[t]
  {
  }

  /** A sync's reading waits unchanged until its own write. */
  lemma {:induction false} ReadingWaits(
      db: seq<UsageRecord>, steps: seq<Step>, run: seq<Ledger>, from: nat, to: nat, t: nat)
    requires IsRun(db, steps, run) && from <= to <= |steps| && t in run[from].readings
    requires forall i: nat :: from <= i < to ==> steps[i] != SyncWrite(t)
    ensures t in run[to].readings && run[to].readings[t] == run[from].readings[t]
  {
    if from < to {
      ReadingWaits(db, steps, run, from, to - 1, t);
      ReadingStep(run[to - 1], steps[to - 1], t);
      assert Leads(steps, run, to - 1);
    }
  }

  /** Thread `t` syncs `key`: it reads at step `r` and writes at step `w`. */
  ghost predicate Syncs(steps: seq<Step>, run: seq<Ledger>, r: nat, w: nat, t: nat, key: string) {
    && r < w < |steps| <= |run|
    && steps[r] == SyncRead(t, key) && t !in run[r].readings
    && steps[w] == SyncWrite(t) && forall i: nat :: r < i < w ==> steps[i] != SyncWrite(t)
  }

  lemma WriteIsOldSum(db: seq<UsageRecord>, steps: seq<Step>, run: seq<Ledger>, r: nat, w: nat, t: nat, key: string)
    requires IsRun(db, steps, run) && Syncs(steps, run, r, w, t, key)
    ensures Counter(run[w + 1].budgets, key) == Cost(run[r].db, key)
    ensures TrueSpend(db, steps, w + 1, key) == TrueSpend(db, steps, w, key)
  {
    assert Leads(steps, run, r) && Leads(steps, run, w);
    ReadingWaits(db, steps, run, r + 1, w, t);
  }

  lemma WriteDrift(db: seq<UsageRecord>, steps: seq<Step>, run: seq<Ledger>, r: nat, w: nat, t: nat, key: string)
    requires IsRun(db, steps, run) && Syncs(steps, run, r, w, t, key)
    ensures TrueSpend(db, steps, r, key) == Counter(run[w + 1].budgets, key) + NotStored(run[r], key)
    ensures TrueSpend(db, steps, w + 1, key) == TrueSpend(db, steps, w, key)
  {
    WriteIsOldSum(db, steps, run, r, w, t, key);
    SpendIsAccountedFor(db, steps, run, r, key);
  }

  /** The exact drift, before step `n` of any run. Let the last overwrite of a key's counter be the sync that
      read at step `r` and wrote at step `w`. Then the true spend is the counter, plus what was not in the
      database at `r`, plus what was spent between `r` and `w`. */
  lemma ExactDrift(
      db: seq<UsageRecord>, steps: seq<Step>, run: seq<Ledger>, n: nat, r: nat, w: nat, t: nat, key: string)
    requires IsRun(db, steps, run) && Syncs(steps, run, r, w, t, key) && w < n <= |steps|
    requires forall i: nat :: w < i < n ==> !Overwrites(steps, run, i, key)
    ensures TrueSpend(db, steps, n, key) ==
            Counter(run[n].budgets, key) + NotStored(run[r], key) +
            (TrueSpend(db, steps, w, key) - TrueSpend(db, steps, r, key))
  {
    WriteDrift(db, steps, run, r, w, t, key);
    CounterFollows(db, steps, run, w + 1, n, key);
  }

  /** Until the first overwrite, the counter lacks exactly what the database knew at the start. */
  lemma DriftBeforeSync(db: seq<UsageRecord>, steps: seq<Step>, run: seq<Ledger>, n: nat, key: string)
    requires IsRun(db, steps, run) && n <= |steps| && forall i: nat :: i < n ==> !Overwrites(steps, run, i, key)
    ensures TrueSpend(db, steps, n, key) == Counter(run[n].budgets, key) + Cost(db, key)
  {
    CounterFollows(db, steps, run, 0, n, key);
  }

  /** A reading that waits was read by a step of its thread, which has not written since. */
  lemma {:induction false} ReadingHasSource(
      db: seq<UsageRecord>, steps: seq<Step>, run: seq<Ledger>, n: nat, t: nat) returns (r: nat)
    requires IsRun(db, steps, run) && n <= |steps| && t in run[n].readings
    ensures r < n && steps[r] == SyncRead(t, run[n].readings[t].key) && t !in run[r].readings
    ensures forall i: nat :: r < i < n ==> steps[i] != SyncWrite(t)
  {
    if n == 0 {
      assert false;
    }
    assert Leads(steps, run, n - 1);
    if t in run[n - 1].readings {
      r := ReadingHasSource(db, steps, run, n - 1, t);
    } else {
      r := n - 1;
    }
  }

  lemma {:induction false} LastOverwrite(steps: seq<Step>, run: seq<Ledger>, n: nat, key: string)
      returns (found: bool, w: nat)
    requires n <= |steps| <= |run|
    ensures found ==> w < n && Overwrites(steps, run, w, key)
    ensures found ==> forall i: nat :: w < i < n ==> !Overwrites(steps, run, i, key)
    ensures !found ==> forall i: nat :: i < n ==> !Overwrites(steps, run, i, key)
  {
    if n == 0 {
      found, w := false, 0;
    } else if Overwrites(steps, run, n - 1, key) {
      found, w := true, n - 1;
    } else {
      found, w := LastOverwrite(steps, run, n - 1, key);
    }
  }

  /** Before every step of every run, one of the two applies: nothing has overwritten the key's counter, or the sync
      that did so last read the database at a step `r` of the run and wrote at a step `w`. */
  lemma DriftAlways(db: seq<UsageRecord>, steps: seq<Step>, run: seq<Ledger>, n: nat, key: string)
      returns (synced: bool, r: nat, w: nat, t: nat)
    requires IsRun(db, steps, run) && n <= |steps|
    ensures !synced ==> TrueSpend(db, steps, n, key) == Counter(run[n].budgets, key) + Cost(db, key)
    ensures synced ==> Syncs(steps, run, r, w, t, key) && w < n
    ensures synced ==>
      TrueSpend(db, steps, n, key) ==
      Counter(run[n].budgets, key) + NotStored(run[r], key) +
      (TrueSpend(db, steps, w, key) - TrueSpend(db, steps, r, key))
    ensures synced ==> forall i: nat :: w < i < n ==> !Overwrites(steps, run, i, key)
    ensures !synced ==> forall i: nat :: i < n ==> !Overwrites(steps, run, i, key)
  {
    r, t := 0, 0;
    synced, w := LastOverwrite(steps, run, n, key);
    if synced {
      t := steps[w].thread;
      r := ReadingHasSource(db, steps, run, w, t);
      ExactDrift(db, steps, run, n, r, w, t, key);
    } else {
      DriftBeforeSync(db, steps, run, n, key);
    }
  }

  // ------------------------------------------------------ who is let through

  /** What the counter lacks of the true spend: what the database knew at the start if nothing has overwritten it, and
      else what was not in the database when the last sync read and what was spent until it wrote. */
  ghost function Drift(
      db: seq<UsageRecord>, steps: seq<Step>, run: seq<Ledger>, synced: bool, r: nat, w: nat, key: string): real
    requires synced ==> r < w < |steps| <= |run|
  {
    if !synced then Cost(db, key)
    else NotStored(run[r], key) + (TrueSpend(db, steps, w, key) - TrueSpend(db, steps, r, key))
  }

  /** Before every step of every run, a key with a limit passes if and only if what it spent, less the drift, is below
      the limit; one without a limit always does. */
  lemma PassesExactly(db: seq<UsageRecord>, steps: seq<Step>, run: seq<Ledger>, n: nat, key: string, limit: real)
      returns (synced: bool, r: nat, w: nat, t: nat)
    requires IsRun(db, steps, run) && n <= |steps|
    ensures synced ==> Syncs(steps, run, r, w, t, key) && w < n
    ensures synced ==> forall i: nat :: w < i < n ==> !Overwrites(steps, run, i, key)
    ensures !synced ==> forall i: nat :: i < n ==> !Overwrites(steps, run, i, key)
    ensures limit > 0.0 ==>
      (Passes(run[n].budgets, key, limit) <==>
       TrueSpend(db, steps, n, key) - Drift(db, steps, run, synced, r, w, key) < limit)
    ensures limit <= 0.0 ==> Passes(run[n].budgets, key, limit)
  {
    synced, r, w, t := DriftAlways(db, steps, run, n, key);
  }

  // --------------------------------------------------- no unjust rejection

  ghost predicate NoNegative(rs: seq<UsageRecord>) {
    forall i :: 0 <= i < |rs| ==> rs[i].costUSD >= 0.0
  }

  ghost predicate NoNegativeSpend(steps: seq<Step>) {
    forall i :: 0 <= i < |steps| && steps[i].Spend? ==> steps[i].r.costUSD >= 0.0
  }

  lemma {:induction false} CostNotNegative(rs: seq<UsageRecord>, key: string)
    requires NoNegative(rs)
    ensures Cost(rs, key) >= 0.0
  {
    if rs != [] {
      CostNotNegative(rs[..|rs| - 1], key);
    }
  }

  ghost predicate MovingNotNegative(s: Ledger) {
    && NoNegative(s.inflight) && NoNegative(s.pipe.chan) && NoNegative(s.pipe.buf)
    && NoNegative(s.pipe.dropped) && NoNegative(s.failed)
  }

  lemma {:induction false} NothingNegative(db: seq<UsageRecord>, steps: seq<Step>, run: seq<Ledger>, n: nat)
    requires IsRun(db, steps, run) && n <= |steps| && NoNegativeSpend(steps)
    ensures MovingNotNegative(run[n])
  {
    if n > 0 {
      NothingNegative(db, steps, run, n - 1);
      MoneyStaysNotNegative(run[n - 1], steps[n - 1]);
      assert Leads(steps, run, n - 1);
    }
  }

  lemma MoveStaysNotNegative(s: Ledger, e: Event, stored: bool)
    requires MovingNotNegative(s) && (e.Produce? ==> e.r.costUSD >= 0.0)
    ensures MovingNotNegative(Move(s, e, stored))
  {
    assert e.Receive? && s.pipe.chan != [] ==>
      NoNegative(s.pipe.buf + [s.pipe.chan[0]]) && NoNegative(s.pipe.chan[1..]);
  }

  lemma MoneyStaysNotNegative(s: Ledger, step: Step)
    requires MovingNotNegative(s) && (step.Spend? ==> step.r.costUSD >= 0.0)
    ensures MovingNotNegative(Apply(s, step))
  {
    match step {
      case Offer(i) =>
        if i < |s.inflight| {
          MoveStaysNotNegative(s.(inflight := s.inflight[..i] + s.inflight[i + 1..]), Produce(s.inflight[i]), true);
        }
      case Recorder(e, stored) =>
        if !e.Produce? {
          MoveStaysNotNegative(s, e, stored);
        }
      case _ =>
    }
  }

  /** Neither a counter nor a reading claims more than `spent`. */
  ghost predicate Modest(s: Ledger, key: string, spent: real) {
    && Counter(s.budgets, key) <= spent
    && forall t :: t in s.readings && s.readings[t].key == key ==> s.readings[t].total <= spent
  }

  lemma ModestStep(s: Ledger, step: Step, key: string, spent: real)
    requires Modest(s, key, spent) && Cost(s.db, key) <= spent && SpentBy(step, key) >= 0.0
    ensures Modest(Apply(s, step), key, spent + SpentBy(step, key))
  {
    if OverwritesIn(s, step, key) {
    } else {
      CounterStep(s, step, key);
    }
  }

  lemma DatabaseNeverAhead(db: seq<UsageRecord>, steps: seq<Step>, run: seq<Ledger>, n: nat, key: string)
    requires IsRun(db, steps, run) && n <= |steps| && NoNegativeSpend(steps)
    ensures Cost(run[n].db, key) <= TrueSpend(db, steps, n, key)
  {
    var s := run[n];
    SpendIsAccountedFor(db, steps, run, n, key);
    NothingNegative(db, steps, run, n);
    CostNotNegative(s.inflight, key);
    CostNotNegative(s.pipe.chan, key);
    CostNotNegative(s.pipe.buf, key);
    CostNotNegative(s.pipe.dropped, key);
    CostNotNegative(s.failed, key);
  }

  lemma {:induction false} CounterNeverAhead(
      db: seq<UsageRecord>, steps: seq<Step>, run: seq<Ledger>, n: nat, key: string)
    requires IsRun(db, steps, run) && n <= |steps| && NoNegative(db) && NoNegativeSpend(steps)
    ensures Modest(run[n], key, TrueSpend(db, steps, n, key))
  {
    if n == 0 {
      CostNotNegative(db, key);
    } else {
      CounterNeverAhead(db, steps, run, n - 1, key);
      DatabaseNeverAhead(db, steps, run, n - 1, key);
      ModestStep(run[n - 1], steps[n - 1], key, TrueSpend(db, steps, n - 1, key));
      assert Leads(steps, run, n - 1);
    }
  }

  /** A key whose true spend is below its limit is never turned away. */
  lemma NeverTurnsAwayEarly(db: seq<UsageRecord>, steps: seq<Step>, run: seq<Ledger>, n: nat, key: string, limit: real)
    requires IsRun(db, steps, run) && n <= |steps| && NoNegative(db) && NoNegativeSpend(steps)
    requires TrueSpend(db, steps, n, key) < limit
    ensures Passes(run[n].budgets, key, limit)
  {
    CounterNeverAhead(db, steps, run, n, key);
  }
}
