/**
  The hourly rollup of internal/worker/usage_rollup.go over the store of
  internal/storage/sqlite/usage.go.

  Times are UTC seconds, which is what the store keeps; comparing RFC 3339 texts of UTC seconds is
  comparing the seconds. The store answers a range query with the first 10,000 of the matching
  records, newest first; records of the same second come in no particular order, and so an answer is
  a parameter constrained to be one of the possible ones. Amounts are reals: rounding of float64 is
  not modelled.
 */
module Rollups {
  import opened Usage

  const HOUR := 3600
  const QUERY_LIMIT := 10_000

  datatype Group = Group(orgID: string, keyID: string, model: string, hour: int)

  datatype Totals = Totals(
    requestCount: nat, promptTokens: int, completionTokens: int, totalTokens: int, costUSD: real, cachedCount: nat)

  const NOTHING := Totals(0, 0, 0, 0, 0.0, 0)

  datatype Row = Row(group: Group, totals: Totals)

  type Table = map<Group, Totals>

  function GroupOf(r: UsageRecord): Group {
    Group(r.orgID, r.keyID, r.model, r.createdAt / HOUR)
  }

  function Add(t: Totals, r: UsageRecord): Totals {
    Totals(t.requestCount + 1, t.promptTokens + r.promptTokens, t.completionTokens + r.completionTokens,
           t.totalTokens + r.totalTokens, t.costUSD + r.costUSD, t.cachedCount + if r.cached then 1 else 0)
  }

  /** The sums over the records of one group. */
  ghost function SumOf(rs: seq<UsageRecord>, g: Group): (t: Totals)
  {
    if rs == [] then NOTHING
    else
      var t := SumOf(rs[..|rs| - 1], g);
      if GroupOf(rs[|rs| - 1]) == g then Add(t, rs[|rs| - 1]) else t
  }

  function Since(now: int): int { (now - 2 * HOUR) / HOUR * HOUR }

  function Until(now: int): int { now / HOUR * HOUR }

  /** The records that a query for a range matches. */
  ghost function Matching(db: seq<UsageRecord>, since: int, until: int): (rs: seq<UsageRecord>)
  {
    if db == [] then []
    else
      var r := db[|db| - 1];
      Matching(db[..|db| - 1], since, until) + if since <= r.createdAt < until then [r] else []
  }

  /** A possible answer to a query: as many of the matching records as the limit allows, newest first. */
  ghost predicate Answers(answer: seq<UsageRecord>, matching: seq<UsageRecord>, limit: nat) {
    && (forall i, j :: 0 <= i < j < |answer| ==> answer[i].createdAt >= answer[j].createdAt)
    && multiset(answer) <= multiset(matching)
    && |answer| == (if |matching| <= limit then |matching| else limit)
    && forall r :: r in matching && multiset(answer)[r] < multiset(matching)[r] ==>
         forall i :: 0 <= i < |answer| ==> answer[i].createdAt >= r.createdAt
  }

  // ------------------------------------------------------------- one rollup

  /** One row per group that occurs among the records, holding the sums over the group. */
  method Aggregate(records: seq<UsageRecord>) returns (rows: seq<Row>)
    ensures forall i, j :: 0 <= i < j < |rows| ==> rows[i].group != rows[j].group
    ensures forall g :: HasRow(rows, g) <==> Occurs(records, g)
    ensures forall i :: 0 <= i < |rows| ==> rows[i].totals == SumOf(records, rows[i].group)
    ensures TotalRequests(rows) == |records|
  {
    var agg: map<Group, Totals> := map[];
    for i := 0 to |records|
      invariant forall g :: g in agg <==> Occurs(records[..i], g)
      invariant forall g :: g in agg ==> agg[g] == SumOf(records[..i], g)
    {
      var r := records[i];
      var k := GroupOf(r);
      forall g {
        SumOfNext(records, i, g);
      }
      if k !in agg {
        AbsentSumsToNothing(records[..i], k);
        agg := agg[k := NOTHING];
      }
      agg := agg[k := Add(agg[k], r)];
    }
    assert records[..|records|] == records;
    rows := [];
    var left := agg.Keys;
    while left != {}
      invariant left <= agg.Keys
      invariant forall i, j :: 0 <= i < j < |rows| ==> rows[i].group != rows[j].group
      invariant forall g :: HasRow(rows, g) <==> g in agg.Keys - left
      invariant forall i :: 0 <= i < |rows| ==> rows[i].totals == SumOf(records, rows[i].group)
      decreases left
    {
      var g :| g in left;
      assert !HasRow(rows, g);
      left := left - {g};
      forall h {
        OneMoreRow(rows, Row(g, agg[g]), h);
      }
      rows := rows + [Row(g, agg[g])];
    }
    RowsCountRecords(records, rows);
  }

  ghost predicate HasRow(rows: seq<Row>, g: Group) {
    exists i :: 0 <= i < |rows| && rows[i].group == g
  }

  lemma OneMoreRow(rows: seq<Row>, row: Row, g: Group)
    ensures HasRow(rows + [row], g) <==> HasRow(rows, g) || row.group == g
    ensures !HasRow(rows, g) ==> forall i :: 0 <= i < |rows| ==> rows[i].group != g
  {
    if HasRow(rows, g) {
      var i :| 0 <= i < |rows| && rows[i].group == g;
      assert (rows + [row])[i].group == g;
    }
    if row.group == g {
      assert (rows + [row])[|rows|].group == g;
    }
  }

  ghost predicate Occurs(rs: seq<UsageRecord>, g: Group) {
    exists i :: 0 <= i < |rs| && GroupOf(rs[i]) == g
  }

  lemma SumOfNext(rs: seq<UsageRecord>, i: nat, g: Group)
    requires i < |rs|
    ensures SumOf(rs[..i + 1], g) == if GroupOf(rs[i]) == g then Add(SumOf(rs[..i], g), rs[i]) else SumOf(rs[..i], g)
    ensures Occurs(rs[..i + 1], g) <==> Occurs(rs[..i], g) || GroupOf(rs[i]) == g
  {
    assert rs[..i + 1][..i] == rs[..i];
    if Occurs(rs[..i], g) {
      var j :| 0 <= j < i && GroupOf(rs[..i][j]) == g;
      assert GroupOf(rs[..i + 1][j]) == g;
    }
    if GroupOf(rs[i]) == g {
      assert GroupOf(rs[..i + 1][i]) == g;
    }
  }

  lemma {:induction false} AbsentSumsToNothing(rs: seq<UsageRecord>, g: Group)
    ensures SumOf(rs, g).requestCount == 0 <==> !Occurs(rs, g)
    ensures !Occurs(rs, g) ==> SumOf(rs, g) == NOTHING
  {
    if rs != [] {
      AbsentSumsToNothing(rs[..|rs| - 1], g);
      SumOfNext(rs, |rs| - 1, g);
      assert rs[..|rs|] == rs;
    }
  }

  /** Replaces the rows of a table, or adds them. */
  method Upsert(table: Table, rows: seq<Row>) returns (table': Table)
    requires forall i, j :: 0 <= i < j < |rows| ==> rows[i].group != rows[j].group
    ensures forall g :: g in table' <==> g in table || HasRow(rows, g)
    ensures forall i :: 0 <= i < |rows| ==> rows[i].group in table' && table'[rows[i].group] == rows[i].totals
    ensures forall g :: g in table && !HasRow(rows, g) ==> g in table' && table'[g] == table[g]
  {
    table' := table;
    for i := 0 to |rows|
      invariant forall g :: g in table' <==> g in table || HasRow(rows[..i], g)
      invariant forall j :: 0 <= j < i ==> rows[j].group in table' && table'[rows[j].group] == rows[j].totals
      invariant forall g :: g in table && !HasRow(rows[..i], g) ==> table'[g] == table[g]
    {
      assert rows[..i + 1] == rows[..i] + [rows[i]];
      forall g {
        OneMoreRow(rows[..i], rows[i], g);
      }
      table' := table'[rows[i].group := rows[i].totals];
    }
    assert rows[..|rows|] == rows;
  }

  /** The table after a rollup that read `records`. */
  ghost function Refreshed(table: Table, records: seq<UsageRecord>): (table': Table)
    ensures forall g :: g in table' <==> g in table || Occurs(records, g)
    ensures forall g :: g in table' ==> table'[g] == if Occurs(records, g) then SumOf(records, g) else table[g]
  {
    var seen := set r | r in records :: GroupOf(r);
    assert forall g :: g in seen <==> Occurs(records, g) by {
      forall g | Occurs(records, g)
        ensures g in seen
      {
        var i :| 0 <= i < |records| && GroupOf(records[i]) == g;
        assert records[i] in records;
      }
    }
    map g | g in table.Keys + seen :: if Occurs(records, g) then SumOf(records, g) else table[g]
  }

  /** The body of the worker, given what the query answered. */
  method Rollup(table: Table, records: seq<UsageRecord>) returns (table': Table)
    ensures table' == Refreshed(table, records)
  {
    if |records| == 0 {
      return table;
    }
    var rows := Aggregate(records);
    table' := Upsert(table, rows);
    forall g
      ensures g in table' <==> g in Refreshed(table, records)
      ensures g in table' ==> table'[g] == Refreshed(table, records)[g]
    {
      if Occurs(records, g) {
        assert HasRow(rows, g);
        var i :| 0 <= i < |rows| && rows[i].group == g;
        assert table'[rows[i].group] == rows[i].totals;
      }
    }
  }

  // ------------------------------------------------------ order is no matter

  lemma AddSwaps(t: Totals, a: UsageRecord, b: UsageRecord)
    ensures Add(Add(t, a), b) == Add(Add(t, b), a)
  {
  }

  /** Taking a record out of its place subtracts it. */
  lemma {:induction false} SumWithout(rs: seq<UsageRecord>, i: nat, g: Group)
    requires i < |rs|
    ensures SumOf(rs, g) ==
      if GroupOf(rs[i]) == g then Add(SumOf(rs[..i] + rs[i + 1..], g), rs[i]) else SumOf(rs[..i] + rs[i + 1..], g)
  {
    var n := |rs| - 1;
    if i == n {
      assert rs[..i] + rs[i + 1..] == rs[..n];
    } else {
      SumWithout(rs[..n], i, g);
      var rest := rs[..i] + rs[i + 1..];
      assert rest[..n - 1] == rs[..n][..i] + rs[..n][i + 1..];
      assert rest[n - 1] == rs[n];
      AddSwaps(SumOf(rest[..n - 1], g), rs[i], rs[n]);
    }
  }

  /** The sums depend on which records there are, not on their order. */
  lemma {:induction false} SumOfPermutation(a: seq<UsageRecord>, b: seq<UsageRecord>, g: Group)
    requires multiset(a) == multiset(b)
    ensures SumOf(a, g) == SumOf(b, g)
    decreases |a|
  {
    if a == [] {
      assert |multiset(b)| == |b|;
    } else {
      var r := a[|a| - 1];
      assert r in multiset(a);
      var i :| 0 <= i < |b| && b[i] == r;
      var rest := b[..i] + b[i + 1..];
      assert b == b[..i] + [r] + b[i + 1..];
      assert a == a[..|a| - 1] + [r];
      assert multiset(rest) == multiset(b) - multiset{r};
      SumOfPermutation(a[..|a| - 1], rest, g);
      SumWithout(b, i, g);
    }
  }

  // -------------------------------------------------------- hour alignment

  /** The rollup of an instant covers the two full hours before the current one. */
  predicate Covers(now: int, hour: int) {
    now / HOUR - 2 <= hour < now / HOUR
  }

  lemma RangeIsWholeHours(now: int, t: int)
    ensures Since(now) <= t < Until(now) <==> Covers(now, t / HOUR)
  {
    assert (now - 2 * HOUR) / HOUR == now / HOUR - 2;
  }

  /** What the range query matches of a covered group is the whole group, and of others nothing: no hour is
      ever partial. */
  lemma {:induction false} MatchingGroup(db: seq<UsageRecord>, now: int, g: Group)
    ensures SumOf(Matching(db, Since(now), Until(now)), g) == if Covers(now, g.hour) then SumOf(db, g) else NOTHING
    ensures Occurs(Matching(db, Since(now), Until(now)), g) <==> Covers(now, g.hour) && Occurs(db, g)
  {
    if db != [] {
      var n := |db| - 1;
      var before := Matching(db[..n], Since(now), Until(now));
      MatchingGroup(db[..n], now, g);
      RangeIsWholeHours(now, db[n].createdAt);
      SumOfNext(db, n, g);
      assert db[..n + 1] == db;
      if Covers(now, db[n].createdAt / HOUR) {
        var m := before + [db[n]];
        assert m[..|before| + 1] == m && m[..|before|] == before;
        SumOfNext(m, |before|, g);
      } else {
        assert before + [] == before;
      }
    }
  }

  /** With at most 10,000 matches, a rollup sets every covered group to its true sums and touches no other. */
  lemma RollupExact(table: Table, db: seq<UsageRecord>, now: int, answer: seq<UsageRecord>, g: Group)
    requires var m := Matching(db, Since(now), Until(now)); |m| <= QUERY_LIMIT && Answers(answer, m, QUERY_LIMIT)
    ensures Covers(now, g.hour) && Occurs(db, g) ==>
      g in Refreshed(table, answer) && Refreshed(table, answer)[g] == SumOf(db, g)
    ensures !(Covers(now, g.hour) && Occurs(db, g)) ==>
      (g in Refreshed(table, answer) <==> g in table) && (g in table ==> Refreshed(table, answer)[g] == table[g])
  {
    var m := Matching(db, Since(now), Until(now));
    SameSize(answer, m);
    SumOfPermutation(answer, m, g);
    MatchingGroup(db, now, g);
    AbsentSumsToNothing(answer, g);
    AbsentSumsToNothing(m, g);
  }

  lemma SameSize(a: seq<UsageRecord>, b: seq<UsageRecord>)
    requires multiset(a) <= multiset(b) && |a| == |b|
    ensures multiset(a) == multiset(b)
  {
    assert |multiset(b) - multiset(a)| == |multiset(b)| - |multiset(a)|;
  }

  // --------------------------------------------------------------- whole runs

  datatype Step =
    | Insert(records: seq<UsageRecord>)
    | RollUp(now: int, answer: seq<UsageRecord>)

  datatype Store = Store(db: seq<UsageRecord>, table: Table)

  ghost function Apply(s: Store, step: Step): Store {
    match step
    case Insert(records) => s.(db := s.db + records)
    case RollUp(_, answer) => s.(table := Refreshed(s.table, answer))
  }

  ghost function After(steps: seq<Step>): (s: Store)
  {
    if steps == [] then Store([], map[]) else Apply(After(steps[..|steps| - 1]), steps[|steps| - 1])
  }

  /** Every rollup of the run read what its query matched, all of it. */
  ghost predicate Complete(steps: seq<Step>) {
    forall i: nat :: i < |steps| && steps[i].RollUp? ==> CompleteAt(steps, i)
  }

  ghost predicate CompleteAt(steps: seq<Step>, i: nat)
    requires i < |steps| && steps[i].RollUp?
  {
    var m := Matching(After(steps[..i]).db, Since(steps[i].now), Until(steps[i].now));
    |m| <= QUERY_LIMIT && Answers(steps[i].answer, m, QUERY_LIMIT)
  }

  /** The database as the last rollup that covers `hour` found it; empty if there was none. */
  ghost function LastCovered(steps: seq<Step>, hour: int): (db: seq<UsageRecord>)
  {
    if steps == [] then []
    else
      var last := steps[|steps| - 1];
      if last.RollUp? && Covers(last.now, hour) then After(steps[..|steps| - 1]).db
      else LastCovered(steps[..|steps| - 1], hour)
  }

  lemma {:induction false} LastCoveredIsPrefix(steps: seq<Step>, hour: int)
    ensures LastCovered(steps, hour) <= After(steps).db
  {
    if steps != [] {
      LastCoveredIsPrefix(steps[..|steps| - 1], hour);
    }
  }

  lemma OccursInPrefix(a: seq<UsageRecord>, b: seq<UsageRecord>, g: Group)
    requires a <= b && Occurs(a, g)
    ensures Occurs(b, g)
  {
    var i :| 0 <= i < |a| && GroupOf(a[i]) == g;
    assert GroupOf(b[i]) == g;
  }

  /** Over every run, a group has a row exactly when it had a record at the last rollup that covered its
      hour, and the row is the sums over the group as it stood then. */
  lemma {:induction false} RowsAreLastCoveredSums(steps: seq<Step>, g: Group)
    requires Complete(steps)
    ensures g in After(steps).table <==> Occurs(LastCovered(steps, g.hour), g)
    ensures g in After(steps).table ==> After(steps).table[g] == SumOf(LastCovered(steps, g.hour), g)
  {
    if steps != [] {
      var n := |steps| - 1;
      var before, last := After(steps[..n]), steps[n];
      CompleteBefore(steps, n);
      RowsAreLastCoveredSums(steps[..n], g);
      if last.RollUp? {
        assert CompleteAt(steps, n);
        RollupExact(before.table, before.db, last.now, last.answer, g);
        if Covers(last.now, g.hour) && !Occurs(before.db, g) && g in before.table {
          LastCoveredIsPrefix(steps[..n], g.hour);
          OccursInPrefix(LastCovered(steps[..n], g.hour), before.db, g);
        }
      }
    }
  }

  lemma CompleteBefore(steps: seq<Step>, n: nat)
    requires n <= |steps| && Complete(steps)
    ensures Complete(steps[..n])
  {
    forall i: nat | i < n && steps[..n][i].RollUp?
      ensures CompleteAt(steps[..n], i)
    {
      assert steps[..n][..i] == steps[..i];
      assert CompleteAt(steps, i);
    }
  }

  /** Rolling up again at an instant that covers the same hours, from an unchanged database, changes nothing. */
  lemma RepeatChangesNothing(
      table: Table, db: seq<UsageRecord>, now: int, later: int, a: seq<UsageRecord>, b: seq<UsageRecord>)
    requires now / HOUR == later / HOUR
    requires var m := Matching(db, Since(now), Until(now)); |m| <= QUERY_LIMIT && Answers(a, m, QUERY_LIMIT)
    requires var m := Matching(db, Since(later), Until(later)); Answers(b, m, QUERY_LIMIT)
    ensures Refreshed(Refreshed(table, a), b) == Refreshed(table, a)
  {
    var once := Refreshed(table, a);
    SameHourSameRange(now, later);
    forall g
      ensures g in Refreshed(once, b) <==> g in once
      ensures g in once ==> Refreshed(once, b)[g] == once[g]
    {
      RepeatKeepsRow(table, db, now, a, b, g);
    }
  }

  lemma SameHourSameRange(now: int, later: int)
    requires now / HOUR == later / HOUR
    ensures Since(now) == Since(later) && Until(now) == Until(later)
  {
    assert (now - 2 * HOUR) / HOUR == now / HOUR - 2;
    assert (later - 2 * HOUR) / HOUR == later / HOUR - 2;
  }

  lemma RepeatKeepsRow(table: Table, db: seq<UsageRecord>, now: int, a: seq<UsageRecord>, b: seq<UsageRecord>, g: Group)
    requires var m := Matching(db, Since(now), Until(now));
      |m| <= QUERY_LIMIT && Answers(a, m, QUERY_LIMIT) && Answers(b, m, QUERY_LIMIT)
    ensures var once := Refreshed(table, a);
      (g in Refreshed(once, b) <==> g in once) && (g in once ==> Refreshed(once, b)[g] == once[g])
  {
    RollupExact(table, db, now, a, g);
    RollupExact(Refreshed(table, a), db, now, b, g);
  }

  // ------------------------------------------------------------- the counts

  ghost predicate Distinct(groups: seq<Group>) {
    forall i, j :: 0 <= i < j < |groups| ==> groups[i] != groups[j]
  }

  /** Requests counted under a list of groups. */
  ghost function CountUnder(records: seq<UsageRecord>, groups: seq<Group>): (n: nat)
  {
    if groups == [] then 0
    else CountUnder(records, groups[..|groups| - 1]) + SumOf(records, groups[|groups| - 1]).requestCount
  }

  lemma {:induction false} CountOneMore(records: seq<UsageRecord>, groups: seq<Group>)
    requires records != [] && Distinct(groups)
    ensures CountUnder(records, groups) == CountUnder(records[..|records| - 1], groups) +
      if GroupOf(records[|records| - 1]) in groups then 1 else 0
  {
    if groups != [] {
      CountOneMore(records, groups[..|groups| - 1]);
      assert groups == groups[..|groups| - 1] + [groups[|groups| - 1]];
    }
  }

  lemma {:induction false} CountNone(groups: seq<Group>)
    ensures CountUnder([], groups) == 0
  {
    if groups != [] {
      CountNone(groups[..|groups| - 1]);
    }
  }

  /** The request counts of distinct groups that leave none out add up to the number of records. */
  lemma {:induction false} CountsAddUp(records: seq<UsageRecord>, groups: seq<Group>)
    requires Distinct(groups) && forall r :: r in records ==> GroupOf(r) in groups
    ensures CountUnder(records, groups) == |records|
  {
    if records == [] {
      CountNone(groups);
    } else {
      CountOneMore(records, groups);
      CountsAddUp(records[..|records| - 1], groups);
    }
  }

  ghost function TotalRequests(rows: seq<Row>): (n: nat)
  {
    if rows == [] then 0 else TotalRequests(rows[..|rows| - 1]) + rows[|rows| - 1].totals.requestCount
  }

  lemma {:induction false} TotalIsCount(records: seq<UsageRecord>, rows: seq<Row>, groups: seq<Group>)
    requires |groups| == |rows|
    requires forall i :: 0 <= i < |rows| ==> rows[i].group == groups[i] && rows[i].totals == SumOf(records, groups[i])
    ensures TotalRequests(rows) == CountUnder(records, groups)
  {
    if rows != [] {
      TotalIsCount(records, rows[..|rows| - 1], groups[..|rows| - 1]);
    }
  }

  /** The rows that a rollup writes count every record it read once. */
  lemma RowsCountRecords(records: seq<UsageRecord>, rows: seq<Row>)
    requires forall i, j :: 0 <= i < j < |rows| ==> rows[i].group != rows[j].group
    requires forall g :: HasRow(rows, g) <==> Occurs(records, g)
    requires forall i :: 0 <= i < |rows| ==> rows[i].totals == SumOf(records, rows[i].group)
    ensures TotalRequests(rows) == |records|
  {
    var groups := seq(|rows|, i requires 0 <= i < |rows| => rows[i].group);
    TotalIsCount(records, rows, groups);
    forall r | r in records
      ensures GroupOf(r) in groups
    {
      var k :| 0 <= k < |records| && records[k] == r;
      assert Occurs(records, GroupOf(r));
      assert HasRow(rows, GroupOf(r));
      var i :| 0 <= i < |rows| && rows[i].group == GroupOf(r);
      assert groups[i] == GroupOf(r);
    }
    CountsAddUp(records, groups);
  }

  // ------------------------------------------------------- field by field

  /** The record is of this organisation, key and model, and of this hour. */
  predicate InGroup(r: UsageRecord, g: Group) {
    && r.orgID == g.orgID && r.keyID == g.keyID && r.model == g.model
    && g.hour * HOUR <= r.createdAt < (g.hour + 1) * HOUR
  }

  lemma GroupOfMeans(r: UsageRecord, g: Group)
    ensures GroupOf(r) == g <==> InGroup(r, g)
  {
    if InGroup(r, g) {
      assert r.createdAt / HOUR == g.hour;
    }
  }

  ghost function IntSum(rs: seq<UsageRecord>, g: Group, field: UsageRecord -> int): (n: int)
  {
    if rs == [] then 0
    else IntSum(rs[..|rs| - 1], g, field) + if InGroup(rs[|rs| - 1], g) then field(rs[|rs| - 1]) else 0
  }

  ghost function RealSum(rs: seq<UsageRecord>, g: Group, field: UsageRecord -> real): (x: real)
  {
    if rs == [] then 0.0
    else RealSum(rs[..|rs| - 1], g, field) + if InGroup(rs[|rs| - 1], g) then field(rs[|rs| - 1]) else 0.0
  }

  function One(r: UsageRecord): int { 1 }

  function PromptOf(r: UsageRecord): int { r.promptTokens }

  function CompletionOf(r: UsageRecord): int { r.completionTokens }

  function TokensOf(r: UsageRecord): int { r.totalTokens }

  function CostOf(r: UsageRecord): real { r.costUSD }

  function CachedOf(r: UsageRecord): int { if r.cached then 1 else 0 }

  /** Each total of a group is the sum of its own field over the records of that organisation, key, model and hour. */
  lemma {:induction false} TotalsAreSums(rs: seq<UsageRecord>, g: Group)
    ensures var t := SumOf(rs, g);
      && t.requestCount == IntSum(rs, g, One) && t.cachedCount == IntSum(rs, g, CachedOf)
      && t.promptTokens == IntSum(rs, g, PromptOf) && t.completionTokens == IntSum(rs, g, CompletionOf)
      && t.totalTokens == IntSum(rs, g, TokensOf) && t.costUSD == RealSum(rs, g, CostOf)
  {
    if rs != [] {
      TotalsAreSums(rs[..|rs| - 1], g);
      GroupOfMeans(rs[|rs| - 1], g);
    }
  }

  // ----------------------------------------------------- beyond the limit

  /** Every group that the range holds is written with its true sums. */
  ghost predicate WritesTrueSums(answer: seq<UsageRecord>, matching: seq<UsageRecord>) {
    forall g :: Occurs(matching, g) ==> SumOf(answer, g) == SumOf(matching, g)
  }

  lemma {:induction false} ListGroups(rs: seq<UsageRecord>) returns (groups: seq<Group>)
    ensures Distinct(groups)
    ensures forall g :: g in groups <==> Occurs(rs, g)
  {
    if rs == [] {
      groups := [];
    } else {
      var n := |rs| - 1;
      groups := ListGroups(rs[..n]);
      forall g {
        SumOfNext(rs, n, g);
      }
      assert rs[..n + 1] == rs;
      if GroupOf(rs[n]) !in groups {
        groups := groups + [GroupOf(rs[n])];
      }
    }
  }

  lemma {:induction false} CountAgrees(a: seq<UsageRecord>, b: seq<UsageRecord>, groups: seq<Group>)
    requires forall g :: g in groups ==> SumOf(a, g) == SumOf(b, g)
    ensures CountUnder(a, groups) == CountUnder(b, groups)
  {
    if groups != [] {
      CountAgrees(a, b, groups[..|groups| - 1]);
    }
  }

  /** A rollup writes the true sums of every group in its range if and only if at most 10,000 records match. */
  lemma TrueSumsIffWithinLimit(answer: seq<UsageRecord>, matching: seq<UsageRecord>)
    requires Answers(answer, matching, QUERY_LIMIT)
    ensures WritesTrueSums(answer, matching) <==> |matching| <= QUERY_LIMIT
  {
    if |matching| <= QUERY_LIMIT {
      SameSize(answer, matching);
      forall g {
        SumOfPermutation(answer, matching, g);
      }
    } else if WritesTrueSums(answer, matching) {
      var groups := ListGroups(matching);
      forall r | r in answer
        ensures r in matching
      {
        assert multiset(answer)[r] > 0;
      }
      GroupsListed(matching, groups);
      CountsAddUp(matching, groups);
      CountsAddUp(answer, groups);
      CountAgrees(answer, matching, groups);
    }
  }

  lemma GroupsListed(rs: seq<UsageRecord>, groups: seq<Group>)
    requires forall g :: g in groups <==> Occurs(rs, g)
    ensures forall r :: r in rs ==> GroupOf(r) in groups
  {
    forall r | r in rs
      ensures GroupOf(r) in groups
    {
      var k :| 0 <= k < |rs| && rs[k] == r;
      assert Occurs(rs, GroupOf(r));
    }
  }

  // ------------------------------------------- every query has an answer

  ghost predicate NewestFirst(rs: seq<UsageRecord>) {
    forall i, j :: 0 <= i < j < |rs| ==> rs[i].createdAt >= rs[j].createdAt
  }

  lemma {:induction false} InsertNewestFirst(r: UsageRecord, rs: seq<UsageRecord>) returns (out: seq<UsageRecord>)
    requires NewestFirst(rs)
    ensures NewestFirst(out) && multiset(out) == multiset(rs) + multiset{r}
  {
    if rs == [] || r.createdAt >= rs[0].createdAt {
      out := [r] + rs;
    } else {
      var rest := InsertNewestFirst(r, rs[1..]);
      assert rs == [rs[0]] + rs[1..];
      forall i | 0 <= i < |rest|
        ensures rs[0].createdAt >= rest[i].createdAt
      {
        assert rest[i] in multiset(rest);
      }
      out := [rs[0]] + rest;
    }
  }

  lemma {:induction false} SortNewestFirst(rs: seq<UsageRecord>) returns (out: seq<UsageRecord>)
    ensures NewestFirst(out) && multiset(out) == multiset(rs)
  {
    if rs == [] {
      out := [];
    } else {
      var rest := SortNewestFirst(rs[1..]);
      out := InsertNewestFirst(rs[0], rest);
      assert rs == [rs[0]] + rs[1..];
    }
  }

  lemma SizeOfMultiset(a: seq<UsageRecord>, b: seq<UsageRecord>)
    requires multiset(a) == multiset(b)
    ensures |a| == |b|
  {
    assert |multiset(a)| == |a| && |multiset(b)| == |b|;
  }

  lemma AnAnswerExists(matching: seq<UsageRecord>, limit: nat) returns (answer: seq<UsageRecord>)
    ensures Answers(answer, matching, limit)
  {
    var sorted := SortNewestFirst(matching);
    SizeOfMultiset(sorted, matching);
    var k := if |matching| <= limit then |matching| else limit;
    answer := sorted[..k];
    var dropped := sorted[k..];
    assert sorted == answer + dropped;
    forall r, i | r in matching && multiset(answer)[r] < multiset(matching)[r] && 0 <= i < |answer|
      ensures answer[i].createdAt >= r.createdAt
    {
      assert multiset(matching)[r] == multiset(answer)[r] + multiset(dropped)[r];
      assert r in dropped;
    }
  }

  // ------------------------------------- what is missed is not picked up

  /** Every rollup of the run read a possible answer to its query, whether it was cut off or not. */
  ghost predicate Answered(steps: seq<Step>) {
    forall i: nat :: i < |steps| && steps[i].RollUp? ==> AnsweredAt(steps, i)
  }

  ghost predicate AnsweredAt(steps: seq<Step>, i: nat)
    requires i < |steps| && steps[i].RollUp?
  {
    Answers(steps[i].answer, Matching(After(steps[..i]).db, Since(steps[i].now), Until(steps[i].now)), QUERY_LIMIT)
  }

  lemma {:induction false} CountWithin(rs: seq<UsageRecord>, g: Group)
    ensures SumOf(rs, g).requestCount <= |rs|
    ensures (forall r :: r in rs ==> GroupOf(r) == g) ==> SumOf(rs, g).requestCount == |rs|
  {
    if rs != [] {
      CountWithin(rs[..|rs| - 1], g);
    }
  }

  /** No row ever counts more than 10,000 requests: a group that has more is wrong after every rollup, however
      many follow. */
  lemma {:induction false} OverfullGroupNeverRight(steps: seq<Step>, g: Group)
    requires Answered(steps)
    ensures g in After(steps).table ==> After(steps).table[g].requestCount <= QUERY_LIMIT
    ensures g in After(steps).table && SumOf(After(steps).db, g).requestCount > QUERY_LIMIT ==>
      After(steps).table[g] != SumOf(After(steps).db, g)
  {
    if steps != [] {
      var n := |steps| - 1;
      AnsweredBefore(steps, n);
      OverfullGroupNeverRight(steps[..n], g);
      if steps[n].RollUp? {
        assert AnsweredAt(steps, n);
        CountWithin(steps[n].answer, g);
      }
    }
  }

  lemma AnsweredBefore(steps: seq<Step>, n: nat)
    requires n <= |steps| && Answered(steps)
    ensures Answered(steps[..n])
  {
    forall i: nat | i < n && steps[..n][i].RollUp?
      ensures AnsweredAt(steps[..n], i)
    {
      assert steps[..n][..i] == steps[..i];
      assert AnsweredAt(steps, i);
    }
  }

  lemma {:induction false} AllMatch(rs: seq<UsageRecord>, since: int, until: int)
    requires forall i :: 0 <= i < |rs| ==> since <= rs[i].createdAt < until
    ensures Matching(rs, since, until) == rs
  {
    if rs != [] {
      AllMatch(rs[..|rs| - 1], since, until);
      assert rs == rs[..|rs| - 1] + [rs[|rs| - 1]];
    }
  }

  lemma AnswerOfOneGroup(rs: seq<UsageRecord>, g: Group, now: int) returns (answer: seq<UsageRecord>)
    requires |rs| > QUERY_LIMIT && Covers(now, g.hour) && forall i :: 0 <= i < |rs| ==> GroupOf(rs[i]) == g
    ensures Answers(answer, Matching(rs, Since(now), Until(now)), QUERY_LIMIT)
    ensures SumOf(answer, g).requestCount == QUERY_LIMIT && Occurs(answer, g)
  {
    forall i | 0 <= i < |rs|
      ensures Since(now) <= rs[i].createdAt < Until(now)
    {
      RangeIsWholeHours(now, rs[i].createdAt);
      assert GroupOf(rs[i]).hour == g.hour;
    }
    AllMatch(rs, Since(now), Until(now));
    answer := AnAnswerExists(rs, QUERY_LIMIT);
    forall r | r in answer
      ensures GroupOf(r) == g
    {
      assert multiset(answer)[r] <= multiset(rs)[r];
      assert r in rs;
    }
    CountWithin(answer, g);
    assert GroupOf(answer[0]) == g;
  }

  lemma OneMoreStep(steps: seq<Step>, step: Step)
    requires Answered(steps)
    requires step.RollUp? ==>
      Answers(step.answer, Matching(After(steps).db, Since(step.now), Until(step.now)), QUERY_LIMIT)
    ensures Answered(steps + [step]) && After(steps + [step]) == Apply(After(steps), step)
  {
    var more := steps + [step];
    assert more[..|steps|] == steps;
    forall i: nat | i < |more| && more[i].RollUp?
      ensures AnsweredAt(more, i)
    {
      if i < |steps| {
        assert more[..i] == steps[..i];
        assert AnsweredAt(steps, i);
      }
    }
  }

  /** When the database holds more records than the limit, all of one group, whatever was done before: a rollup that
      covers the group's hour can be answered, and leaves a row of 10,000 requests. */
  lemma RollsUpWrong(steps: seq<Step>, g: Group, now: int) returns (answer: seq<UsageRecord>)
    requires Answered(steps) && Covers(now, g.hour) && |After(steps).db| > QUERY_LIMIT
    requires forall i :: 0 <= i < |After(steps).db| ==> GroupOf(After(steps).db[i]) == g
    ensures var after := After(steps + [RollUp(now, answer)]);
      && Answered(steps + [RollUp(now, answer)]) && after.db == After(steps).db && g in after.table
      && after.table[g].requestCount == QUERY_LIMIT < |after.db| == SumOf(after.db, g).requestCount
  {
    answer := AnswerOfOneGroup(After(steps).db, g, now);
    OneMoreStep(steps, RollUp(now, answer));
    CountWithin(After(steps).db, g);
  }

  /** And there are such groups: 10,001 requests in one hour, rolled up in the next. */
  lemma OverfullExample() returns (steps: seq<Step>, g: Group)
    ensures Answered(steps) && g in After(steps).table && SumOf(After(steps).db, g).requestCount == QUERY_LIMIT + 1
    ensures After(steps).table[g].requestCount == QUERY_LIMIT
  {
    var r := UsageRecord("", "key", "org", "model", 1, 1, 2, 0.5, false, 10 * HOUR);
    var rs := seq(QUERY_LIMIT + 1, _ => r);
    g := GroupOf(r);
    assert g.hour == 10;
    OneMoreStep([], Insert(rs));
    steps := [] + [Insert(rs)];
    assert After([]).db + rs == rs;
    var answer := RollsUpWrong(steps, g, 11 * HOUR);
    steps := steps + [RollUp(11 * HOUR, answer)];
  }
}
