/**
  The breaker registry of internal/circuitbreaker/registry.go, twice.

  `BreakerRegistries.Registry` is the registry on its own: the map and its two operations, with
  the eviction loops as written.

  `RegistryProtocol` is the registry shared by any number of threads. Taking a lock, and each read or
  write of the map under it, is a step of its own, and a thread may stop between any two steps. A
  breaker's `lastUsed` is under the breaker's own lock, so it may move at any step, also between the
  check and the deletion of an eviction.
 */
module BreakerRegistries {
  import opened Breakers

  class Registry {
    var breakers: map<string, Breaker>
    const config: Config

    constructor (cfg: Config)
      ensures breakers == map[] && config == cfg
    {
      breakers, config := map[], cfg;
    }

    method GetOrCreate(providerID: string, now: Instant) returns (b: Breaker)
      modifies this
      ensures providerID in breakers && breakers[providerID] == b
      ensures providerID in old(breakers) ==> breakers == old(breakers)
      ensures providerID !in old(breakers) ==>
        && breakers == old(breakers)[providerID := b]
        && fresh(b) && b.Valid() && b.cfg == config && b.Value() == New(now)
    {
      if providerID in breakers {
        return breakers[providerID];
      }
      b := new Breaker(config, now);
      breakers := breakers[providerID := b];
    }

    /** Both phases with nobody else running: exactly the stale entries go, and they are counted. */
    method EvictStale(cutoff: int) returns (evicted: nat)
      modifies this
      ensures forall k :: k in breakers <==> k in old(breakers) && old(breakers[k].lastUsed.mono) >= cutoff
      ensures forall k :: k in breakers ==> breakers[k] == old(breakers)[k]
      ensures evicted == |old(breakers)| - |breakers|
    {
      var staleKeys := FindStale(cutoff);
      evicted := 0;
      for i := 0 to |staleKeys|
        invariant forall k :: k in breakers <==> k in old(breakers) && k !in staleKeys[..i]
        invariant forall k :: k in breakers ==> breakers[k] == old(breakers)[k]
        invariant evicted == |old(breakers)| - |breakers|
      {
        var k := staleKeys[i];
        assert k in staleKeys && staleKeys[..i + 1] == staleKeys[..i] + [k];
        if k in breakers {
          if breakers[k].lastUsed.mono < cutoff {
            breakers := Without(breakers, k);
            evicted := evicted + 1;
          }
        }
      }
      assert staleKeys[..|staleKeys|] == staleKeys;
    }

    /** The first phase. */
    method FindStale(cutoff: int) returns (staleKeys: seq<string>)
      ensures forall k :: k in staleKeys <==> k in breakers && breakers[k].lastUsed.mono < cutoff
    {
      var left := breakers.Keys;
      staleKeys := [];
      while left != {}
        invariant left <= breakers.Keys
        invariant forall k :: k in staleKeys <==> k in breakers.Keys - left && breakers[k].lastUsed.mono < cutoff
        decreases left
      {
        var k :| k in left;
        left := left - {k};
        if breakers[k].lastUsed.mono < cutoff {
          staleKeys := staleKeys + [k];
        }
      }
    }
  }

  function Without<V>(m: map<string, V>, k: string): (r: map<string, V>)
    requires k in m
    ensures r.Keys == m.Keys - {k} && |r| == |m| - 1
    ensures forall x :: x in r ==> r[x] == m[x]
  {
    var r := m - {k};
    assert r.Keys == m.Keys - {k};
    assert |m.Keys| == |r.Keys| + 1;
    r
  }
}

module RegistryProtocol {
  import opened Basics

  /** Where a thread stands. `Scanning` holds the read lock; `Rechecking`, `Installing`, `Deleting`
      and `Armed` hold the write lock. */
  datatype Pc =
    | Idle
    | Missed(provider: string)
    | Rechecking(provider: string)
    | Installing(provider: string)
    | Scanning(cutoff: int, left: set<string>, stale: seq<string>)
    | Waiting(cutoff: int, stale: seq<string>)
    | Deleting(cutoff: int, todo: seq<string>, evicted: nat)
    | Armed(cutoff: int, todo: seq<string>, evicted: nat)

  /** What happened, in order. A breaker is told apart from others by a number. */
  datatype Event =
    | Installed(provider: string, id: nat)
    | Used(id: nat, at: int)                                      // its last use is now `at`
    | Returned(provider: string, id: nat)                         // GetOrCreate returns it
    | Began(thread: nat, cutoff: int)                             // EvictStale is called
    | Checked(thread: nat, provider: string, id: nat, lastUsed: int)
    | Evicted(thread: nat, provider: string, id: nat)
    | Counted(thread: nat, evicted: nat)                          // EvictStale returns

  datatype Action =
    | Lookup(thread: nat, provider: string)
    | LockToCreate(thread: nat)
    | Recheck(thread: nat)
    | Install(thread: nat, now: int)
    | BeginScan(thread: nat, cutoff: int)
    | ScanOne(thread: nat, provider: string)
    | EndScan(thread: nat)
    | LockToDelete(thread: nat)
    | CheckOne(thread: nat)
    | DeleteOne(thread: nat)
    | EndDelete(thread: nat)
    | Touch(id: nat, now: int)

  datatype State = State(
    breakers: map<string, nat>, lastUsed: map<nat, int>, nextId: nat, pcs: map<nat, Pc>, trace: seq<Event>)

  const START := State(map[], map[], 0, map[], [])

  function PcOf(s: State, t: nat): Pc {
    if t in s.pcs then s.pcs[t] else Idle
  }

  predicate Writes(pc: Pc) {
    pc.Rechecking? || pc.Installing? || pc.Deleting? || pc.Armed?
  }

  predicate NoWriter(s: State) {
    forall t :: t in s.pcs ==> !Writes(s.pcs[t])
  }

  predicate NoHolder(s: State) {
    forall t :: t in s.pcs ==> !Writes(s.pcs[t]) && !s.pcs[t].Scanning?
  }

  function Goto(s: State, t: nat, pc: Pc): State {
    s.(pcs := s.pcs[t := pc])
  }

  function Log(s: State, e: Event): State {
    s.(trace := s.trace + [e])
  }

  function UsedAt(s: State, id: nat): int {
    if id in s.lastUsed then s.lastUsed[id] else 0
  }

  /** A breaker's last use is written. */
  function Use(s: State, id: nat, now: int): State {
    Log(s.(lastUsed := s.lastUsed[id := now]), Used(id, now))
  }

  /** One step of one thread; a step that its thread cannot take leaves the state alone. */
  function Step(s: State, a: Action): (s': State)
  {
    match a
    case Lookup(t, p) =>
      if !PcOf(s, t).Idle? || !NoWriter(s) then s
      else if p in s.breakers then Log(s, Returned(p, s.breakers[p]))
      else Goto(s, t, Missed(p))
    case LockToCreate(t) =>
      if !PcOf(s, t).Missed? || !NoHolder(s) then s
      else Goto(s, t, Rechecking(PcOf(s, t).provider))
    case Recheck(t) =>
      if !PcOf(s, t).Rechecking? then s
      else
        var p := PcOf(s, t).provider;
        if p in s.breakers then Goto(Log(s, Returned(p, s.breakers[p])), t, Idle)
        else Goto(s, t, Installing(p))
    case Install(t, now) =>
      if !PcOf(s, t).Installing? then s
      else
        var p, id := PcOf(s, t).provider, s.nextId;
        var made := Use(s.(nextId := id + 1), id, now);
        var kept := Log(made.(breakers := made.breakers[p := id]), Installed(p, id));
        Goto(Log(kept, Returned(p, id)), t, Idle)
    case BeginScan(t, cutoff) =>
      if !PcOf(s, t).Idle? || !NoWriter(s) then s
      else Goto(Log(s, Began(t, cutoff)), t, Scanning(cutoff, s.breakers.Keys, []))
    case ScanOne(t, p) =>
      var pc := PcOf(s, t);
      if !pc.Scanning? || p !in pc.left || p !in s.breakers then s
      else
        var stale := if UsedAt(s, s.breakers[p]) < pc.cutoff then pc.stale + [p] else pc.stale;
        Goto(s, t, pc.(left := pc.left - {p}, stale := stale))
    case EndScan(t) =>
      var pc := PcOf(s, t);
      if !pc.Scanning? || pc.left != {} then s
      else if pc.stale == [] then Goto(Log(s, Counted(t, 0)), t, Idle)
      else Goto(s, t, Waiting(pc.cutoff, pc.stale))
    case LockToDelete(t) =>
      var pc := PcOf(s, t);
      if !pc.Waiting? || !NoHolder(s) then s
      else Goto(s, t, Deleting(pc.cutoff, pc.stale, 0))
    case CheckOne(t) =>
      var pc := PcOf(s, t);
      if !pc.Deleting? || pc.todo == [] then s
      else if pc.todo[0] !in s.breakers then
        Goto(s, t, Deleting(pc.cutoff, pc.todo[1..], pc.evicted))
      else
        var p, id := pc.todo[0], s.breakers[pc.todo[0]];
        var s1 := Log(s, Checked(t, p, id, UsedAt(s, id)));
        if UsedAt(s, id) < pc.cutoff then Goto(s1, t, Armed(pc.cutoff, pc.todo, pc.evicted))
        else Goto(s1, t, Deleting(pc.cutoff, pc.todo[1..], pc.evicted))
    case DeleteOne(t) =>
      var pc := PcOf(s, t);
      if !pc.Armed? || pc.todo == [] || pc.todo[0] !in s.breakers then s
      else
        var p := pc.todo[0];
        var s1 := Log(s.(breakers := s.breakers - {p}), Evicted(t, p, s.breakers[p]));
        Goto(s1, t, Deleting(pc.cutoff, pc.todo[1..], pc.evicted + 1))
    case EndDelete(t) =>
      var pc := PcOf(s, t);
      if !pc.Deleting? || pc.todo != [] then s
      else Goto(Log(s, Counted(t, pc.evicted)), t, Idle)
    case Touch(id, now) =>
      if id >= s.nextId then s else Use(s, id, now)
  }

  ghost function Run(actions: seq<Action>): (s: State)
  {
    if actions == [] then START else Step(Run(actions[..|actions| - 1]), actions[|actions| - 1])
  }

  // ------------------------------------------------------ reading the trace

  /** A call of EvictStale: its cutoff, and how many entries it has removed. */
  datatype Sweep = Sweep(cutoff: int, evicted: nat)

  /** What a trace alone tells: the breakers installed so far, each provider's breaker, each breaker's last use,
      each thread's last sweep, and the last event other than a use. */
  datatype View = View(
    made: set<nat>, owner: map<string, nat>, used: map<nat, int>, sweeps: map<nat, Sweep>, latest: Option<Event>)

  const BLANK := View({}, map[], map[], map[], None)

  function See(v: View, e: Event): View {
    match e
    case Used(id, at) => v.(used := v.used[id := at])
    case Installed(p, id) => v.(made := v.made + {id}, owner := v.owner[p := id], latest := Some(e))
    case Began(t, cutoff) => v.(sweeps := v.sweeps[t := Sweep(cutoff, 0)], latest := Some(e))
    case Evicted(t, p, _) =>
      var k := if t in v.sweeps then v.sweeps[t] else Sweep(0, 0);
      v.(owner := v.owner - {p}, sweeps := v.sweeps[t := k.(evicted := k.evicted + 1)], latest := Some(e))
    case _ => v.(latest := Some(e))
  }

  /** What the first `n` events tell. */
  ghost function ViewAt(trace: seq<Event>, n: nat): (v: View)
    requires n <= |trace|
  {
    if n == 0 then BLANK else See(ViewAt(trace, n - 1), trace[n - 1])
  }

  /** The event is right given what came before: an installed breaker is a new one and its provider has
      none; a call returns the provider's breaker; a check reads the last use of the provider's breaker; an
      eviction removes the breaker checked just before and found older than the cutoff its thread was given;
      and a count is the number of evictions of that call. */
  ghost predicate Right(v: View, e: Event) {
    match e
    case Installed(p, id) => p !in v.owner && id in v.used && id !in v.made
    case Returned(p, id) => p in v.owner && v.owner[p] == id
    case Checked(t, p, id, at) => p in v.owner && v.owner[p] == id && id in v.used && v.used[id] == at
    case Evicted(t, p, id) =>
      && p in v.owner && v.owner[p] == id && t in v.sweeps && v.latest.Some?
      && v.latest.value.Checked? && v.latest.value.lastUsed < v.sweeps[t].cutoff
      && v.latest.value == Checked(t, p, id, v.latest.value.lastUsed)
    case Counted(t, n) => t in v.sweeps && v.sweeps[t].evicted == n
    case _ => true
  }

  ghost predicate RightAt(trace: seq<Event>, i: nat)
    requires i < |trace|
  {
    Right(ViewAt(trace, i), trace[i])
  }

  ghost predicate AllRight(trace: seq<Event>) {
    forall i: nat :: i < |trace| ==> RightAt(trace, i)
  }

  lemma {:induction false} ViewSame(a: seq<Event>, b: seq<Event>, n: nat)
    requires n <= |a| && n <= |b| && forall i :: 0 <= i < n ==> a[i] == b[i]
    ensures ViewAt(a, n) == ViewAt(b, n)
  {
    if n > 0 {
      ViewSame(a, b, n - 1);
    }
  }

  // ------------------------------------------------------------- invariant

  /** Where a thread stands agrees with the registry and with what the trace tells. */
  ghost predicate PcRight(v: View, t: nat, pc: Pc) {
    match pc
    case Installing(p) => p !in v.owner
    case Scanning(cutoff, left, _) => left <= v.owner.Keys && t in v.sweeps && v.sweeps[t] == Sweep(cutoff, 0)
    case Waiting(cutoff, _) => t in v.sweeps && v.sweeps[t] == Sweep(cutoff, 0)
    case Deleting(cutoff, _, n) => t in v.sweeps && v.sweeps[t] == Sweep(cutoff, n)
    case Armed(cutoff, todo, n) =>
      && t in v.sweeps && v.sweeps[t] == Sweep(cutoff, n)
      && todo != [] && todo[0] in v.owner && v.latest.Some?
      && v.latest.value.Checked? && v.latest.value.lastUsed < cutoff
      && v.latest.value == Checked(t, todo[0], v.owner[todo[0]], v.latest.value.lastUsed)
    case _ => true
  }

  /** Everyone but `t`. */
  ghost predicate OthersRight(v: View, pcs: map<nat, Pc>, t: nat) {
    forall u :: u in pcs && u != t ==> PcRight(v, u, pcs[u])
  }

  /** A writer excludes every other holder. */
  ghost predicate Locked(pcs: map<nat, Pc>) {
    forall t, u :: t in pcs && u in pcs && t != u && Writes(pcs[t]) ==> !Writes(pcs[u]) && !pcs[u].Scanning?
  }

  ghost predicate Alone(pcs: map<nat, Pc>, t: nat) {
    forall u :: u in pcs && u != t ==> !Writes(pcs[u]) && !pcs[u].Scanning?
  }

  ghost predicate NoOtherWriter(pcs: map<nat, Pc>, t: nat) {
    forall u :: u in pcs && u != t ==> !Writes(pcs[u])
  }

  /** The registry is what the trace tells, and what the trace tells is right. */
  ghost predicate Told(s: State) {
    var v := ViewAt(s.trace, |s.trace|);
    && s.breakers == v.owner && s.lastUsed == v.used
    && (forall id: nat :: id in s.lastUsed <==> id < s.nextId)
    && (forall id :: id in v.made ==> id < s.nextId)
    && (forall p :: p in s.breakers ==> s.breakers[p] < s.nextId)
    && AllRight(s.trace)
  }

  ghost predicate Invariant(s: State) {
    Locked(s.pcs) && Told(s) && forall t :: t in s.pcs ==> PcRight(ViewAt(s.trace, |s.trace|), t, s.pcs[t])
  }

  ghost function Tells(s: State): View {
    ViewAt(s.trace, |s.trace|)
  }

  lemma LogOne(trace: seq<Event>, e: Event)
    ensures ViewAt(trace + [e], |trace| + 1) == See(ViewAt(trace, |trace|), e)
    ensures AllRight(trace) && Right(ViewAt(trace, |trace|), e) ==> AllRight(trace + [e])
  {
    var trace' := trace + [e];
    ViewSame(trace, trace', |trace|);
    if AllRight(trace) && Right(ViewAt(trace, |trace|), e) {
      forall i: nat | i < |trace'|
        ensures RightAt(trace', i)
      {
        ViewSame(trace, trace', i);
        if i < |trace| {
          assert RightAt(trace, i);
        }
      }
    }
  }

  /** A right event, logged where the registry changes as the event says. */
  lemma Tell(s: State, e: Event, s': State)
    requires Told(s) && Right(Tells(s), e)
    requires s'.trace == s.trace + [e] && s'.nextId >= s.nextId
    requires s'.breakers == See(Tells(s), e).owner && s'.lastUsed == See(Tells(s), e).used
    requires forall id: nat :: id in s'.lastUsed <==> id < s'.nextId
    requires e.Installed? ==> e.id < s'.nextId
    ensures Told(s') && Tells(s') == See(Tells(s), e)
  {
    LogOne(s.trace, e);
  }

  /** What an event by thread `t` tells does not disturb the others, if `t` holds the lock the event needs. */
  lemma OthersUndisturbed(v: View, e: Event, pcs: map<nat, Pc>, t: nat)
    requires OthersRight(v, pcs, t)
    requires e.Began? || e.Evicted? || e.Checked? || e.Counted? ==> e.thread == t
    requires !e.Used? ==> NoOtherWriter(pcs, t)
    requires e.Installed? || e.Evicted? ==> Alone(pcs, t)
    ensures OthersRight(See(v, e), pcs, t)
  {
    forall u | u in pcs && u != t
      ensures PcRight(See(v, e), u, pcs[u])
    {
      assert PcRight(v, u, pcs[u]);
    }
  }

  /** Thread `t` moves to `pc`, which is right and keeps the lock exclusive. */
  lemma Land(s: State, t: nat, pc: Pc)
    requires Locked(s.pcs) && Told(s) && OthersRight(Tells(s), s.pcs, t) && PcRight(Tells(s), t, pc)
    requires Writes(pc) ==> Alone(s.pcs, t)
    requires pc.Scanning? ==> NoOtherWriter(s.pcs, t)
    ensures Invariant(Goto(s, t, pc))
  {
  }

  lemma LogAndLand(s: State, t: nat, e: Event, s': State, pc: Pc)
    requires Locked(s.pcs) && Told(s) && OthersRight(Tells(s), s.pcs, t) && Right(Tells(s), e)
    requires s'.trace == s.trace + [e] && s'.nextId == s.nextId && s'.pcs == s.pcs
    requires s'.breakers == See(Tells(s), e).owner && s'.lastUsed == See(Tells(s), e).used
    requires e.Returned? || e.Began? || e.Checked? || e.Evicted? || e.Counted?
    requires !e.Returned? ==> e.thread == t
    requires NoOtherWriter(s.pcs, t)
    requires e.Evicted? || Writes(pc) ==> Alone(s.pcs, t)
    requires PcRight(See(Tells(s), e), t, pc)
    ensures Invariant(Goto(s', t, pc))
  {
    Tell(s, e, s');
    OthersUndisturbed(Tells(s), e, s.pcs, t);
    Land(s', t, pc);
  }

  lemma HolderAlone(s: State, t: nat)
    requires Invariant(s) && t in s.pcs
    ensures Writes(s.pcs[t]) ==> Alone(s.pcs, t)
    ensures Writes(s.pcs[t]) || s.pcs[t].Scanning? ==> NoOtherWriter(s.pcs, t)
    ensures OthersRight(Tells(s), s.pcs, t) && PcRight(Tells(s), t, s.pcs[t])
  {
  }

  lemma UseKeeps(s: State, id: nat, now: int)
    requires Told(s) && id <= s.nextId
    ensures var s' := Use(s.(nextId := if id == s.nextId then id + 1 else s.nextId), id, now);
      Told(s') && Tells(s') == See(Tells(s), Used(id, now))
  {
    Tell(s, Used(id, now), Use(s.(nextId := if id == s.nextId then id + 1 else s.nextId), id, now));
  }

  lemma LookupKeeps(s: State, t: nat, p: string)
    requires Invariant(s)
    ensures Invariant(Step(s, Lookup(t, p)))
  {
    if PcOf(s, t).Idle? && NoWriter(s) {
      if p in s.breakers {
        var e := Returned(p, s.breakers[p]);
        Tell(s, e, Log(s, e));
        OthersUndisturbed(Tells(s), e, s.pcs, t);
      } else {
        Land(s, t, Missed(p));
      }
    }
  }

  lemma RecheckKeeps(s: State, t: nat)
    requires Invariant(s)
    ensures Invariant(Step(s, Recheck(t)))
  {
    if PcOf(s, t).Rechecking? {
      HolderAlone(s, t);
      var p := PcOf(s, t).provider;
      if p in s.breakers {
        var e := Returned(p, s.breakers[p]);
        LogAndLand(s, t, e, Log(s, e), Idle);
      } else {
        Land(s, t, Installing(p));
      }
    }
  }

  lemma InstallKeeps(s: State, t: nat, now: int)
    requires Invariant(s)
    ensures Invariant(Step(s, Install(t, now)))
  {
    if PcOf(s, t).Installing? {
      HolderAlone(s, t);
      var p, id := PcOf(s, t).provider, s.nextId;
      var made := Use(s.(nextId := id + 1), id, now);
      var kept := Log(made.(breakers := made.breakers[p := id]), Installed(p, id));
      UseKeeps(s, id, now);
      OthersUndisturbed(Tells(s), Used(id, now), s.pcs, t);
      Tell(made, Installed(p, id), kept);
      OthersUndisturbed(Tells(made), Installed(p, id), s.pcs, t);
      LogAndLand(kept, t, Returned(p, id), Log(kept, Returned(p, id)), Idle);
    }
  }

  lemma ScanKeeps(s: State, a: Action)
    requires Invariant(s) && (a.LockToCreate? || a.ScanOne? || a.LockToDelete?)
    ensures Invariant(Step(s, a))
  {
    var s', t := Step(s, a), a.thread;
    if s' != s {
      HolderAlone(s, t);
      Land(s, t, PcOf(s', t));
    }
  }

  lemma BeginScanKeeps(s: State, t: nat, cutoff: int)
    requires Invariant(s)
    ensures Invariant(Step(s, BeginScan(t, cutoff)))
  {
    if PcOf(s, t).Idle? && NoWriter(s) {
      var e := Began(t, cutoff);
      LogAndLand(s, t, e, Log(s, e), Scanning(cutoff, s.breakers.Keys, []));
    }
  }

  lemma EndScanKeeps(s: State, t: nat)
    requires Invariant(s)
    ensures Invariant(Step(s, EndScan(t)))
  {
    var pc := PcOf(s, t);
    if pc.Scanning? && pc.left == {} {
      HolderAlone(s, t);
      if pc.stale == [] {
        LogAndLand(s, t, Counted(t, 0), Log(s, Counted(t, 0)), Idle);
      } else {
        Land(s, t, Waiting(pc.cutoff, pc.stale));
      }
    }
  }

  lemma CheckKeeps(s: State, t: nat)
    requires Invariant(s)
    ensures Invariant(Step(s, CheckOne(t)))
  {
    var pc := PcOf(s, t);
    if pc.Deleting? && pc.todo != [] {
      HolderAlone(s, t);
      var next := PcOf(Step(s, CheckOne(t)), t);
      if pc.todo[0] !in s.breakers {
        Land(s, t, next);
      } else {
        var id := s.breakers[pc.todo[0]];
        var e := Checked(t, pc.todo[0], id, UsedAt(s, id));
        LogAndLand(s, t, e, Log(s, e), next);
      }
    }
  }

  lemma DeleteKeeps(s: State, t: nat)
    requires Invariant(s)
    ensures Invariant(Step(s, DeleteOne(t)))
  {
    var pc := PcOf(s, t);
    if pc.Armed? {
      HolderAlone(s, t);
      var p := pc.todo[0];
      var e := Evicted(t, p, s.breakers[p]);
      LogAndLand(s, t, e, Log(s.(breakers := s.breakers - {p}), e), Deleting(pc.cutoff, pc.todo[1..], pc.evicted + 1));
    }
  }

  lemma EndDeleteKeeps(s: State, t: nat)
    requires Invariant(s)
    ensures Invariant(Step(s, EndDelete(t)))
  {
    var pc := PcOf(s, t);
    if pc.Deleting? && pc.todo == [] {
      HolderAlone(s, t);
      LogAndLand(s, t, Counted(t, pc.evicted), Log(s, Counted(t, pc.evicted)), Idle);
    }
  }

  lemma TouchKeeps(s: State, id: nat, now: int)
    requires Invariant(s)
    ensures Invariant(Step(s, Touch(id, now)))
  {
    if id < s.nextId {
      UseKeeps(s, id, now);
    }
  }

  /** In every run, under every interleaving, the registry is what the trace tells, and every event is right. */
  lemma {:induction false} RunsAreRight(actions: seq<Action>)
    ensures Invariant(Run(actions))
  {
    if actions != [] {
      var n := |actions| - 1;
      RunsAreRight(actions[..n]);
      var s, a := Run(actions[..n]), actions[n];
      match a {
        case Lookup(t, p) => LookupKeeps(s, t, p);
        case Recheck(t) => RecheckKeeps(s, t);
        case Install(t, now) => InstallKeeps(s, t, now);
        case BeginScan(t, cutoff) => BeginScanKeeps(s, t, cutoff);
        case EndScan(t) => EndScanKeeps(s, t);
        case CheckOne(t) => CheckKeeps(s, t);
        case DeleteOne(t) => DeleteKeeps(s, t);
        case EndDelete(t) => EndDeleteKeeps(s, t);
        case Touch(id, now) => TouchKeeps(s, id, now);
        case _ => ScanKeeps(s, a);
      }
    }
  }

  // ------------------------------------------------- what every trace shows

  /** The trace of some run. */
  ghost predicate Happens(trace: seq<Event>) {
    exists actions :: Run(actions).trace == trace
  }

  lemma TracesAreRight(trace: seq<Event>)
    requires Happens(trace)
    ensures AllRight(trace)
  {
    var actions :| Run(actions).trace == trace;
    RunsAreRight(actions);
  }

  lemma {:induction false} OwnerStays(trace: seq<Event>, p: string, i: nat, j: nat)
    requires AllRight(trace) && i <= j <= |trace| && p in ViewAt(trace, i).owner
    requires forall k: nat :: i <= k < j ==> !(trace[k].Evicted? && trace[k].provider == p)
    ensures p in ViewAt(trace, j).owner && ViewAt(trace, j).owner[p] == ViewAt(trace, i).owner[p]
    ensures forall k: nat :: i <= k < j ==> !(trace[k].Installed? && trace[k].provider == p)
  {
    if i < j {
      OwnerStays(trace, p, i, j - 1);
      assert RightAt(trace, j - 1);
    }
  }

  ghost predicate Hands(e: Event, p: string) {
    (e.Installed? || e.Returned?) && e.provider == p
  }

  /** Between two evictions of a provider one breaker is installed at most, and everyone who asks
      in that span is given that one. */
  lemma OneBreakerPerSpan(trace: seq<Event>, p: string, i: nat, j: nat)
    requires Happens(trace) && i < j < |trace| && Hands(trace[i], p) && Hands(trace[j], p)
    requires forall k: nat :: i < k < j ==> !(trace[k].Evicted? && trace[k].provider == p)
    ensures trace[j].id == trace[i].id && !trace[j].Installed?
  {
    TracesAreRight(trace);
    assert RightAt(trace, i) && RightAt(trace, j);
    OwnerStays(trace, p, i + 1, j);
  }

  lemma {:induction false} MadeStays(trace: seq<Event>, id: nat, i: nat, j: nat)
    requires i <= j <= |trace| && id in ViewAt(trace, i).made
    ensures id in ViewAt(trace, j).made
  {
    if i < j {
      MadeStays(trace, id, i, j - 1);
    }
  }

  /** A breaker is installed once: a provider that was evicted gets a new one. */
  lemma InstalledOnce(trace: seq<Event>, i: nat, j: nat)
    requires Happens(trace) && i < j < |trace| && trace[i].Installed? && trace[j].Installed?
    ensures trace[i].id != trace[j].id
  {
    TracesAreRight(trace);
    assert RightAt(trace, j);
    MadeStays(trace, trace[i].id, i + 1, j);
  }

  /** Event `k` is the last before `n` that writes the last use of `id`. */
  ghost predicate LastUse(trace: seq<Event>, n: nat, id: nat, k: nat)
    requires n <= |trace|
  {
    && k < n && trace[k].Used? && trace[k].id == id
    && forall i: nat :: k < i < n ==> !(trace[i].Used? && trace[i].id == id)
  }

  /** Event `k` is where the call of EvictStale begins that thread `t` is in before event `n`. */
  ghost predicate LastCall(trace: seq<Event>, n: nat, t: nat, k: nat)
    requires n <= |trace|
  {
    && k < n && trace[k].Began? && trace[k].thread == t
    && forall i: nat :: k < i < n ==> !(trace[i].Began? && trace[i].thread == t)
  }

  /** Event `k` installs the breaker that `p` still has before event `n`. */
  ghost predicate LastMade(trace: seq<Event>, n: nat, p: string, k: nat)
    requires n <= |trace|
  {
    && k < n && trace[k].Installed? && trace[k].provider == p
    && forall i: nat :: k < i < n ==> !((trace[i].Installed? || trace[i].Evicted?) && trace[i].provider == p)
  }

  ghost function EvictionsBy(trace: seq<Event>, from: nat, to: nat, t: nat): (n: nat)
    requires from <= to <= |trace|
  {
    if from == to then 0
    else EvictionsBy(trace, from, to - 1, t) +
         if trace[to - 1].Evicted? && trace[to - 1].thread == t then 1 else 0
  }

  lemma {:induction false} UseFound(trace: seq<Event>, n: nat, id: nat) returns (k: nat)
    requires n <= |trace| && id in ViewAt(trace, n).used
    ensures LastUse(trace, n, id, k) && trace[k].at == ViewAt(trace, n).used[id]
  {
    if trace[n - 1].Used? && trace[n - 1].id == id {
      k := n - 1;
    } else {
      k := UseFound(trace, n - 1, id);
    }
  }

  lemma {:induction false} CallFound(trace: seq<Event>, n: nat, t: nat) returns (k: nat)
    requires AllRight(trace) && n <= |trace| && t in ViewAt(trace, n).sweeps
    ensures LastCall(trace, n, t, k)
    ensures ViewAt(trace, n).sweeps[t] == Sweep(trace[k].cutoff, EvictionsBy(trace, k, n, t))
  {
    if trace[n - 1].Began? && trace[n - 1].thread == t {
      k := n - 1;
      assert EvictionsBy(trace, k, k, t) == 0;
    } else {
      assert RightAt(trace, n - 1);
      k := CallFound(trace, n - 1, t);
    }
  }

  lemma {:induction false} MadeFound(trace: seq<Event>, n: nat, p: string) returns (k: nat)
    requires n <= |trace| && p in ViewAt(trace, n).owner
    ensures LastMade(trace, n, p, k) && trace[k].id == ViewAt(trace, n).owner[p]
  {
    if trace[n - 1].Installed? && trace[n - 1].provider == p {
      k := n - 1;
    } else {
      k := MadeFound(trace, n - 1, p);
    }
  }

  lemma {:induction false} LatestFound(trace: seq<Event>, n: nat) returns (k: nat)
    requires n <= |trace| && ViewAt(trace, n).latest.Some?
    ensures k < n && trace[k] == ViewAt(trace, n).latest.value && !trace[k].Used?
    ensures forall i: nat :: k < i < n ==> trace[i].Used?
  {
    if trace[n - 1].Used? {
      k := LatestFound(trace, n - 1);
    } else {
      k := n - 1;
    }
  }

  /** An eviction removes the breaker its provider was given at `made`, and only if that breaker's last use, at
      `use`, read again at `check` under the write lock, is before the cutoff that the caller gave at `call`.
      From the reading to the removal nothing happens but uses of breakers. */
  lemma EvictionIsRight(trace: seq<Event>, i: nat) returns (made: nat, call: nat, use: nat, check: nat)
    requires Happens(trace) && i < |trace| && trace[i].Evicted?
    ensures LastMade(trace, i, trace[i].provider, made) && trace[made].id == trace[i].id
    ensures LastCall(trace, i, trace[i].thread, call) && ChecksFor(trace, i, check) && call < check
    ensures LastUse(trace, check, trace[i].id, use) && trace[use].at == trace[check].lastUsed < trace[call].cutoff
  {
    TracesAreRight(trace);
    assert RightAt(trace, i);
    made := MadeFound(trace, i, trace[i].provider);
    call := CallFound(trace, i, trace[i].thread);
    check := LatestFound(trace, i);
    assert RightAt(trace, check);
    use := UseFound(trace, check, trace[i].id);
  }

  /** Event `check` reads the last use of the breaker that event `i` evicts, and only uses come in between. */
  ghost predicate ChecksFor(trace: seq<Event>, i: nat, check: nat)
    requires i < |trace| && trace[i].Evicted?
  {
    && check < i && trace[check].Checked? && trace[check].thread == trace[i].thread
    && trace[check].provider == trace[i].provider && trace[check].id == trace[i].id
    && forall k: nat :: check < k < i ==> trace[k].Used?
  }

  /** The number a caller is told is the number of entries it removed since it called. */
  lemma CountIsRight(trace: seq<Event>, i: nat) returns (call: nat)
    requires Happens(trace) && i < |trace| && trace[i].Counted?
    ensures LastCall(trace, i, trace[i].thread, call)
    ensures trace[i].evicted == EvictionsBy(trace, call, i, trace[i].thread)
  {
    TracesAreRight(trace);
    assert RightAt(trace, i);
    call := CallFound(trace, i, trace[i].thread);
  }

  // --------------------------------------------- an entry in use is removed

  /** When an entry goes, its last use is before the cutoff unless it was used between check and removal; and if such
      uses are not before the cutoff, as when the cutoff is in the past, then only if it was not. */
  lemma StaleWhenRemoved(trace: seq<Event>, i: nat, call: nat, check: nat, last: nat)
    requires Happens(trace) && i < |trace| && trace[i].Evicted?
    requires LastCall(trace, i, trace[i].thread, call) && ChecksFor(trace, i, check)
    requires LastUse(trace, i, trace[i].id, last)
    ensures last < check ==> trace[last].at < trace[call].cutoff
    ensures (forall k: nat :: check < k < i && trace[k].Used? && trace[k].id == trace[i].id ==>
              trace[k].at >= trace[call].cutoff) ==>
      (trace[last].at < trace[call].cutoff <==> last < check)
  {
    var _, call', use, check' := EvictionIsRight(trace, i);
    SameCheck(trace, i, check, check');
    assert call' == call;
    if last < check {
      assert last == use;
    }
  }

  lemma SameCheck(trace: seq<Event>, i: nat, a: nat, b: nat)
    requires i < |trace| && trace[i].Evicted? && ChecksFor(trace, i, a) && ChecksFor(trace, i, b)
    ensures a == b
  {
  }

  /** The run that ends in `s` can go on. */
  lemma Then(actions: seq<Action>, s: State, a: Action) returns (more: seq<Action>)
    requires Run(actions) == s
    ensures Run(more) == Step(s, a)
  {
    more := actions + [a];
    assert more[..|actions|] == actions;
  }

  /** Thread 0 creates an entry at second 0. */
  lemma EntryMade(p: string) returns (s1: State, s2: State, s3: State)
    ensures s1 == Step(START, Lookup(0, p)) && s2 == Step(s1, LockToCreate(0)) && s3 == Step(s2, Recheck(0))
    ensures Step(s3, Install(0, 0)) ==
      State(map[p := 0], map[0 := 0], 1, map[0 := Idle], [Used(0, 0), Installed(p, 0), Returned(p, 0)])
  {
    s1 := State(map[], map[], 0, map[0 := Missed(p)], []);
    s2 := State(map[], map[], 0, map[0 := Rechecking(p)], []);
    s3 := State(map[], map[], 0, map[0 := Installing(p)], []);
  }

  /** Thread 1 evicts what was not used since second 5, and finds the entry stale in its scan. */
  lemma EntryScanned(s: State, p: string) returns (s1: State, s2: State)
    requires s.breakers == map[p := 0] && s.lastUsed == map[0 := 0] && s.pcs == map[0 := Idle]
    ensures s1 == Step(s, BeginScan(1, 5)) && s2 == Step(s1, ScanOne(1, p))
    ensures Step(s2, EndScan(1)) ==
      s.(pcs := map[0 := Idle, 1 := Waiting(5, [p])], trace := s.trace + [Began(1, 5)])
  {
    s1 := s.(pcs := map[0 := Idle, 1 := Scanning(5, {p}, [])], trace := s.trace + [Began(1, 5)]);
    assert s.breakers.Keys == {p};
    s2 := s1.(pcs := map[0 := Idle, 1 := Scanning(5, {}, [p])]);
    assert {p} - {p} == {} && [] + [p] == [p];
  }

  /** And again at its check. */
  lemma EntryChecked(s: State, p: string) returns (s1: State)
    requires s.breakers == map[p := 0] && s.lastUsed == map[0 := 0]
    requires s.pcs == map[0 := Idle, 1 := Waiting(5, [p])]
    ensures s1 == Step(s, LockToDelete(1))
    ensures Step(s1, CheckOne(1)) ==
      s.(pcs := map[0 := Idle, 1 := Armed(5, [p], 0)], trace := s.trace + [Checked(1, p, 0, 0)])
  {
    s1 := s.(pcs := map[0 := Idle, 1 := Deleting(5, [p], 0)]);
  }

  lemma EntryGone(s: State, p: string)
    requires s.breakers == map[p := 0] && s.nextId == 1 && s.pcs == map[0 := Idle, 1 := Armed(5, [p], 0)]
    ensures Step(Step(s, Touch(0, 9)), DeleteOne(1)).trace == s.trace + [Used(0, 9), Evicted(1, p, 0)]
  {
  }

  /** And it can be used in between: an entry that was stale when checked is used at second 9, and then goes. */
  lemma UsedEntryGoes(p: string)
    ensures Happens([Used(0, 0), Installed(p, 0), Returned(p, 0)] + [Began(1, 5)] + [Checked(1, p, 0, 0)] +
                    [Used(0, 9), Evicted(1, p, 0)])
  {
    var s1, s2, s3 := EntryMade(p);
    var s4 := Step(s3, Install(0, 0));
    var s5, s6 := EntryScanned(s4, p);
    var s7 := Step(s6, EndScan(1));
    var s8 := EntryChecked(s7, p);
    var s9 := Step(s8, CheckOne(1));
    EntryGone(s9, p);
    var a := Then([], START, Lookup(0, p));
    a := Then(a, s1, LockToCreate(0));
    a := Then(a, s2, Recheck(0));
    a := Then(a, s3, Install(0, 0));
    a := Then(a, s4, BeginScan(1, 5));
    a := Then(a, s5, ScanOne(1, p));
    a := Then(a, s6, EndScan(1));
    a := Then(a, s7, LockToDelete(1));
    a := Then(a, s8, CheckOne(1));
    a := Then(a, s9, Touch(0, 9));
    a := Then(a, Step(s9, Touch(0, 9)), DeleteOne(1));
  }
}
