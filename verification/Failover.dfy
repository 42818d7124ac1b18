/**
  Routing and priority failover: internal/app/router.go and the failover loops of internal/app/proxy.go.

  The three loops of the source (chat, streaming chat, embeddings) differ only in the provider method
  they call; they are one loop here. Which providers are registered and the clock are parameters
  (`Env`): target number `i` reads the clock when it asks its breaker and again when it reports.
  What a provider answers is not determined: `Gateway.Call` is the only way to learn it, and it leaves
  the call and the answer in a log. Circuits are the machines of module Breakers.
 */
module Failovers {
  import opened Basics
  import opened Breakers
  import opened ErrorClasses

  // ------------------------------------------------------------- routing

  datatype Target = Target(providerID: string, model: string, priority: int)

  predicate Ascending(ts: seq<Target>) {
    forall i, j :: 0 <= i < j < |ts| ==> ts[i].priority <= ts[j].priority
  }

  /** The targets of one priority, in order. */
  ghost function OfPriority(ts: seq<Target>, p: int): (r: seq<Target>)
  {
    if ts == [] then [] else (if ts[0].priority == p then [ts[0]] else []) + OfPriority(ts[1..], p)
  }

  /** A stable sort of `ts`: ascending, and each priority's targets are those of `ts` in the same order. */
  ghost predicate StablySorted(sorted: seq<Target>, ts: seq<Target>) {
    Ascending(sorted) && forall p :: OfPriority(sorted, p) == OfPriority(ts, p)
  }

  /** Puts `t` before the first target that is not of a lower priority number. */
  function Insert(t: Target, ts: seq<Target>): (r: seq<Target>)
    ensures |r| == |ts| + 1
  {
    if ts == [] || t.priority <= ts[0].priority then [t] + ts else [ts[0]] + Insert(t, ts[1..])
  }

  function SortByPriority(ts: seq<Target>): (r: seq<Target>)
    ensures |r| == |ts|
  {
    if ts == [] then [] else Insert(ts[0], SortByPriority(ts[1..]))
  }

  lemma OfPriorityCons(t: Target, ts: seq<Target>, p: int)
    ensures OfPriority([t] + ts, p) == (if t.priority == p then [t] else []) + OfPriority(ts, p)
  {
    assert ([t] + ts)[1..] == ts;
  }

  lemma {:induction false} InsertAscending(t: Target, ts: seq<Target>)
    requires Ascending(ts)
    ensures Ascending(Insert(t, ts))
    ensures forall i :: 0 <= i < |Insert(t, ts)| ==> Insert(t, ts)[i] == t || Insert(t, ts)[i] in ts
  {
    if ts != [] && t.priority > ts[0].priority {
      InsertAscending(t, ts[1..]);
    }
  }

  lemma {:induction false} InsertStable(t: Target, ts: seq<Target>, p: int)
    ensures OfPriority(Insert(t, ts), p) == OfPriority([t] + ts, p)
  {
    OfPriorityCons(t, ts, p);
    if ts != [] && t.priority > ts[0].priority {
      var rest := ts[1..];
      InsertStable(t, rest, p);
      OfPriorityCons(t, rest, p);
      OfPriorityCons(ts[0], Insert(t, rest), p);
      assert ts == [ts[0]] + rest;
      OfPriorityCons(ts[0], rest, p);
    }
  }

  lemma {:induction false} SortIsStable(ts: seq<Target>)
    ensures StablySorted(SortByPriority(ts), ts)
  {
    if ts != [] {
      var tail := SortByPriority(ts[1..]);
      SortIsStable(ts[1..]);
      InsertAscending(ts[0], tail);
      forall p
        ensures OfPriority(SortByPriority(ts), p) == OfPriority(ts, p)
      {
        InsertStable(ts[0], tail, p);
        OfPriorityCons(ts[0], tail, p);
      }
    }
  }

  lemma {:induction false} NoneOfPriority(ts: seq<Target>, p: int)
    ensures OfPriority(ts, p) == [] <==> forall i :: 0 <= i < |ts| ==> ts[i].priority != p
  {
    if ts != [] {
      NoneOfPriority(ts[1..], p);
      assert ts == [ts[0]] + ts[1..];
    }
  }

  /** There is only one stable sort, so it does not matter which algorithm computes it. */
  lemma {:induction false} StableSortUnique(a: seq<Target>, b: seq<Target>)
    requires Ascending(a) && Ascending(b) && forall p :: OfPriority(a, p) == OfPriority(b, p)
    ensures a == b
    decreases |a|
  {
    if a != [] {
      NoneOfPriority(a, a[0].priority);
      NoneOfPriority(b, a[0].priority);
      assert OfPriority(a, a[0].priority) == OfPriority(b, a[0].priority);
      NoneOfPriority(b, b[0].priority);
      NoneOfPriority(a, b[0].priority);
      assert OfPriority(a, b[0].priority) == OfPriority(b, b[0].priority);
      assert a[0].priority == b[0].priority;
      assert OfPriority(a, a[0].priority)[0] == a[0] && OfPriority(b, a[0].priority)[0] == b[0];
      forall p
        ensures OfPriority(a[1..], p) == OfPriority(b[1..], p)
      {
        assert OfPriority(a, p) == OfPriority(b, p);
        DropFirst(a, p);
        DropFirst(b, p);
      }
      StableSortUnique(a[1..], b[1..]);
      assert a == [a[0]] + a[1..] && b == [b[0]] + b[1..];
    }
  }

  lemma DropFirst(ts: seq<Target>, p: int)
    requires ts != []
    ensures OfPriority(ts[1..], p) == if ts[0].priority == p then OfPriority(ts, p)[1..] else OfPriority(ts, p)
  {
  }

  datatype Route = NoRoute | Malformed | Route(targets: seq<Target>)

  datatype Resolved = Targets(ts: seq<Target>) | Unknown | Unreadable | Empty

  /** `source` remembers the targets, as the route gave them, that each cached list was made from. */
  class Router {
    var cache: map<string, seq<Target>>
    ghost var source: map<string, seq<Target>>

    ghost predicate Valid()
      reads this
    {
      cache.Keys == source.Keys && forall m :: m in cache ==> cache[m] != [] && StablySorted(cache[m], source[m])
    }

    constructor ()
      ensures Valid() && cache == map[]
    {
      cache, source := map[], map[];
    }

    /** Targets come back non-empty and stably sorted, from the cache or from the store. */
    method ResolveModel(store: map<string, Route>, model: string) returns (r: Resolved)
      requires Valid()
      modifies this
      ensures Valid()
      ensures r.Targets? ==> r.ts != [] && model in source && StablySorted(r.ts, source[model])
      ensures model in old(cache) ==> r == Targets(old(cache)[model]) && source == old(source)
      ensures model !in old(cache) && r.Targets? ==>
        model in store && store[model].Route? && source == old(source)[model := store[model].targets]
      ensures !r.Targets? ==> source == old(source)
      ensures model !in old(cache) && !r.Targets? ==>
        r == if model !in store || store[model].NoRoute? then Unknown
             else if store[model].Malformed? then Unreadable else Empty
      ensures r.Empty? ==> store[model].targets == []
      ensures cache == if r.Targets? then old(cache)[model := r.ts] else old(cache)
    {
      if model in cache {
        return Targets(cache[model]);
      }
      if model !in store || store[model].NoRoute? {
        return Unknown;
      }
      if store[model].Malformed? {
        return Unreadable;
      }
      var targets := store[model].targets;
      if |targets| == 0 {
        return Empty;
      }
      SortIsStable(targets);
      var resolved := SortByPriority(targets);
      cache, source := cache[model := resolved], source[model := targets];
      return Targets(resolved);
    }

    /** The cache may drop an entry at any time. */
    method Expire(model: string)
      requires Valid()
      modifies this
      ensures Valid() && cache == old(cache) - {model} && source == old(source) - {model}
    {
      cache, source := cache - {model}, source - {model};
    }
  }

  // ------------------------------------------------------------ failover

  datatype Reply<R> = Answer(value: R) | Fault(error: Error)

  datatype Env = Env(
    breaking: bool, cfg: Config, registered: set<string>, asks: nat -> Instant, reports: nat -> Instant)

  type Circuits = map<string, Machine>

  /** How a target fared. */
  datatype Fate<R> =
    | Rejected            // its breaker turned the request away
    | Unregistered        // no such provider
    | Retriable(error: Error)
    | Final(error: Error) // a client error
    | Served(value: R)

  datatype Event<R> =
    | Called(providerID: string, model: string, reply: Reply<R>)
    | Reported(providerID: string, call: Call)

  predicate Decisive<R>(f: Fate<R>) {
    f.Final? || f.Served?
  }

  /** The target was let through and its provider is registered, so it was called. */
  predicate Contacted<R>(f: Fate<R>) {
    f.Retriable? || f.Final? || f.Served?
  }

  predicate LetThrough(env: Env, cbs: Circuits, id: string, now: Instant) {
    env.breaking && id in cbs ==> Admits(env.cfg, cbs[id], now)
  }

  /** Target number `i`, meeting the breakers `cbs`, may fare so. */
  ghost predicate Fares<R>(env: Env, cbs: Circuits, i: nat, t: Target, f: Fate<R>) {
    if !LetThrough(env, cbs, t.providerID, env.asks(i)) then f == Rejected
    else if t.providerID !in env.registered then f == Unregistered
    else Contacted(f) && (f.Final? ==> IsClientError(f.error)) && (f.Retriable? ==> !IsClientError(f.error))
  }

  /** What is reported to the breaker of a target that fared so. */
  function Verdict<R>(env: Env, i: nat, f: Fate<R>): (c: Option<Call>)
  {
    if !env.breaking then None
    else if f.Served? then Some(Success(env.reports(i)))
    else if (f.Retriable? || f.Final?) && Weight(f.error) > 0.0 then Some(Failure(Weight(f.error), env.reports(i)))
    else None
  }

  function Asked(env: Env, cbs: Circuits, id: string, now: Instant): Circuits {
    if env.breaking && id in cbs then cbs[id := Step(env.cfg, cbs[id], Allow(now))] else cbs
  }

  function Informed(env: Env, cbs: Circuits, id: string, c: Call): Circuits {
    var m := if id in cbs then cbs[id] else New(c.now);
    cbs[id := Step(env.cfg, m, c)]
  }

  /** The breakers after what is due to be reported is. */
  function Settled<R>(env: Env, cbs: Circuits, i: nat, id: string, f: Fate<R>): Circuits {
    match Verdict(env, i, f)
    case None => cbs
    case Some(c) => Informed(env, cbs, id, c)
  }

  /** The breakers after target number `i` fared so. */
  function Next<R>(env: Env, cbs: Circuits, i: nat, t: Target, f: Fate<R>): (cbs': Circuits)
  {
    Settled(env, Asked(env, cbs, t.providerID, env.asks(i)), i, t.providerID, f)
  }

  /** What happened to the targets visited: `met[i]` is the breakers that target `i` met, `fates[i]` how it fared. */
  datatype Course<R> = Course(met: seq<Circuits>, fates: seq<Fate<R>>)

  ghost predicate Follows<R>(env: Env, ts: seq<Target>, c: Course<R>, i: nat)
    requires i < |c.fates| <= |ts| && |c.met| == |c.fates| + 1
  {
    Fares(env, c.met[i], i, ts[i], c.fates[i]) && c.met[i + 1] == Next(env, c.met[i], i, ts[i], c.fates[i])
  }

  /** The targets were visited in order, from the first, each meeting the breakers its predecessors left. */
  ghost predicate IsCourse<R>(env: Env, cbs: Circuits, ts: seq<Target>, c: Course<R>) {
    && |c.fates| <= |ts| && |c.met| == |c.fates| + 1 && c.met[0] == cbs
    && forall i: nat :: i < |c.fates| ==> Follows(env, ts, c, i)
  }

  function ReplyOf<R>(f: Fate<R>): Reply<R>
    requires Contacted(f)
  {
    if f.Served? then Answer(f.value) else Fault(f.error)
  }

  /** The call due for a target that fared so. */
  ghost function DueFor<R>(t: Target, f: Fate<R>): seq<Event<R>> {
    if Contacted(f) then [Called(t.providerID, t.model, ReplyOf(f))] else []
  }

  /** And the report. */
  ghost function ReportFor<R>(env: Env, i: nat, t: Target, f: Fate<R>): seq<Event<R>> {
    if Verdict(env, i, f).Some? then [Reported(t.providerID, Verdict(env, i, f).value)] else []
  }

  /** What is done for a target that fared so. */
  ghost function Acts<R>(env: Env, i: nat, t: Target, f: Fate<R>): seq<Event<R>> {
    DueFor(t, f) + ReportFor(env, i, t, f)
  }

  /** What is done for the first `n` targets. */
  ghost function Done<R>(env: Env, ts: seq<Target>, fates: seq<Fate<R>>, n: nat): (events: seq<Event<R>>)
    requires n <= |fates| <= |ts|
  {
    if n == 0 then [] else Done(env, ts, fates, n - 1) + Acts(env, n - 1, ts[n - 1], fates[n - 1])
  }

  datatype Outcome<R> =
    | Response(value: R)
    | ClientFault(error: Error)
    | BreakerOpen(providerID: string)
    | NotRegistered(providerID: string)
    | ProviderFault(error: Error)
    | Nothing             // neither response nor error

  /** What the caller gets if the loop ends with this fate. */
  function Tell<R>(t: Target, f: Fate<R>): (o: Outcome<R>)
    ensures !o.Nothing?
  {
    match f
    case Rejected => BreakerOpen(t.providerID)
    case Unregistered => NotRegistered(t.providerID)
    case Retriable(e) => ProviderFault(e)
    case Final(e) => ClientFault(e)
    case Served(v) => Response(v)
  }

  class Request {
    var model: string

    constructor (m: string)
      ensures model == m
    {
      model := m;
    }
  }

  /** The breakers and the providers. Every call of a provider and every report to a breaker is in the log. */
  class Gateway<R(0)> {
    var circuits: Circuits
    ghost var log: seq<Event<R>>

    constructor ()
      ensures circuits == map[] && log == []
    {
      circuits, log := map[], [];
    }

    method Ask(env: Env, id: string, now: Instant) returns (allowed: bool)
      modifies this`circuits
      ensures allowed == LetThrough(env, old(circuits), id, now)
      ensures circuits == Asked(env, old(circuits), id, now)
    {
      if env.breaking && id in circuits {
        allowed := Admits(env.cfg, circuits[id], now);
        circuits := circuits[id := Step(env.cfg, circuits[id], Allow(now))];
      } else {
        allowed := true;
      }
    }

    /** The provider is sent the request and answers, one way or another. */
    method Call(id: string, req: Request) returns (reply: Reply<R>)
      modifies this`log
      ensures log == old(log) + [Called(id, req.model, reply)]
    {
      reply := *;
      log := log + [Called(id, req.model, reply)];
    }

    method Report(env: Env, id: string, c: Call)
      modifies this
      ensures circuits == Informed(env, old(circuits), id, c) && log == old(log) + [Reported(id, c)]
    {
      if id !in circuits {
        circuits := circuits[id := New(c.now)];
      }
      circuits := circuits[id := Step(env.cfg, circuits[id], c)];
      log := log + [Reported(id, c)];
    }
  }

  /** Calls the provider with the target's model, and reports how it went. */
  method Try<R(0)>(env: Env, g: Gateway<R>, i: nat, target: Target, req: Request) returns (fate: Fate<R>)
    modifies g, req
    ensures Contacted(fate)
    ensures (fate.Final? ==> IsClientError(fate.error)) && (fate.Retriable? ==> !IsClientError(fate.error))
    ensures g.circuits == Settled(env, old(g.circuits), i, target.providerID, fate)
    ensures g.log == old(g.log) + Acts(env, i, target, fate)
    ensures req.model == old(req.model)
  {
    var id := target.providerID;
    var origModel := req.model;
    req.model := target.model;
    var reply := g.Call(id, req);
    req.model := origModel;
    match reply {
      case Fault(e) =>
        fate := if IsClientError(e) then Final(e) else Retriable(e);
        if env.breaking && Weight(e) > 0.0 {
          g.Report(env, id, Failure(Weight(e), env.reports(i)));
        }
      case Answer(value) =>
        fate := Served(value);
        if env.breaking {
          g.Report(env, id, Success(env.reports(i)));
        }
    }
    Assoc(old(g.log), DueFor(target, fate), ReportFor(env, i, target, fate));
  }

  /** One turn of the loop: ask the breaker, find the provider, try it. */
  method Attempt<R(0)>(env: Env, g: Gateway<R>, i: nat, target: Target, req: Request) returns (fate: Fate<R>)
    modifies g, req
    ensures Fares(env, old(g.circuits), i, target, fate)
    ensures g.circuits == Next(env, old(g.circuits), i, target, fate)
    ensures g.log == old(g.log) + Acts(env, i, target, fate)
    ensures req.model == old(req.model)
  {
    var allowed := g.Ask(env, target.providerID, env.asks(i));
    if !allowed {
      return Rejected;
    }
    if target.providerID !in env.registered {
      return Unregistered;
    }
    fate := Try(env, g, i, target, req);
  }

  /** Targets are visited in order until one serves the request or fails it for the client's fault: every
      earlier one was rejected, unregistered or failed retriably. The last one visited is what the caller hears of. */
  ghost predicate FailsOver<R>(env: Env, cbs: Circuits, ts: seq<Target>, c: Course<R>, out: Outcome<R>) {
    && IsCourse(env, cbs, ts, c)
    && (forall i :: 0 <= i < |c.fates| - 1 ==> !Decisive(c.fates[i]))
    && (|c.fates| < |ts| ==> c.fates != [] && Decisive(c.fates[|c.fates| - 1]))
    && out == if ts == [] then Nothing else Tell(ts[|c.fates| - 1], c.fates[|c.fates| - 1])
  }

  /** What was done is what the course says: exactly the contacted targets were called, once, in order, each with its
      own model, and they answered as they fared; and each report follows the call it is about. */
  ghost predicate InOrder<R>(env: Env, ts: seq<Target>, c: Course<R>, events: seq<Event<R>>)
    requires |c.fates| <= |ts|
  {
    && events == Done(env, ts, c.fates, |c.fates|)
    && CallsIn(events) == Due(ts, c.fates, |c.fates|)
    && ReportsRight(env, events)
  }

  /** So far the targets were visited along the course, and the log and the breakers are as it says. */
  ghost predicate Visited<R>(
      env: Env, cbs: Circuits, log: seq<Event<R>>, ts: seq<Target>, c: Course<R>, cbs': Circuits, log': seq<Event<R>>)
  {
    IsCourse(env, cbs, ts, c) && cbs' == c.met[|c.fates|] && log' == log + Done(env, ts, c.fates, |c.fates|)
  }

  /** The next target is visited. */
  method Visit<R(0)>(env: Env, g: Gateway<R>, ts: seq<Target>, i: nat, req: Request,
                     ghost cbs: Circuits, ghost log: seq<Event<R>>, ghost c: Course<R>)
    returns (fate: Fate<R>, ghost c': Course<R>)
    requires Visited(env, cbs, log, ts, c, g.circuits, g.log) && i == |c.fates| < |ts|
    modifies g, req
    ensures Visited(env, cbs, log, ts, c', g.circuits, g.log) && c'.fates == c.fates + [fate]
    ensures req.model == old(req.model)
  {
    fate := Attempt(env, g, i, ts[i], req);
    c' := Course(c.met + [g.circuits], c.fates + [fate]);
    CourseGrows(env, cbs, ts, c, fate);
    Assoc(log, Done(env, ts, c.fates, i), Acts(env, i, ts[i], fate));
  }

  ghost predicate FailedRetriably<R>(call: Event<R>) {
    call.Called? && call.reply.Fault? && !IsClientError(call.reply.error)
  }

  /** What the caller is told, by the log: a response if and only if the last call was answered, and then that answer;
      a client error if and only if the last call failed with one, and then that one. Otherwise every target was
      visited, and the caller hears of the last: that its breaker turned the request away, that it is not
      registered, or how its call failed. Every call but the last failed, and not for the client's fault. */
  ghost predicate Told<R>(env: Env, ts: seq<Target>, c: Course<R>, calls: seq<Event<R>>, out: Outcome<R>)
    requires |c.fates| <= |ts| && |c.met| == |c.fates| + 1
    requires forall k :: 0 <= k < |calls| ==> calls[k].Called?
  {
    var answered := calls != [] && calls[|calls| - 1].reply.Answer?;
    var faulted := calls != [] && calls[|calls| - 1].reply.Fault?;
    && (out.Nothing? <==> ts == [])
    && (out.Response? <==> answered)
    && (out.Response? ==> calls[|calls| - 1].reply == Answer(out.value))
    && (out.ClientFault? <==> faulted && IsClientError(calls[|calls| - 1].reply.error))
    && (out.ClientFault? ==> calls[|calls| - 1].reply == Fault(out.error))
    && (ts != [] && !out.Response? && !out.ClientFault? ==>
        && |c.fates| == |ts|
        && var n := |ts| - 1;
           var turnedAway := !LetThrough(env, c.met[n], ts[n].providerID, env.asks(n));
           && (out.BreakerOpen? <==> turnedAway)
           && (out.BreakerOpen? ==> out.providerID == ts[n].providerID)
           && (out.NotRegistered? <==> !turnedAway && ts[n].providerID !in env.registered)
           && (out.NotRegistered? ==> out.providerID == ts[n].providerID)
           && (out.ProviderFault? <==> !turnedAway && ts[n].providerID in env.registered)
           && (out.ProviderFault? ==> faulted && calls[|calls| - 1].providerID == ts[n].providerID)
           && (out.ProviderFault? ==> calls[|calls| - 1].reply == Fault(out.error)))
    && (forall k :: 0 <= k < |calls| - 1 ==> FailedRetriably(calls[k]))
  }

  method Complete<R(0)>(env: Env, g: Gateway<R>, ts: seq<Target>, req: Request)
    returns (out: Outcome<R>, ghost c: Course<R>, ghost events: seq<Event<R>>)
    modifies g, req
    ensures FailsOver(env, old(g.circuits), ts, c, out) && (out.Nothing? <==> ts == [])
    ensures OnlyCalls(CallsIn(events)) && Told(env, ts, c, CallsIn(events), out)
    ensures g.circuits == c.met[|c.fates|] && req.model == old(req.model)
    ensures g.log == old(g.log) + events && InOrder(env, ts, c, events)
  {
    out, c := Walk(env, g, ts, req);
    events := Done(env, ts, c.fates, |c.fates|);
    CourseInOrder(env, ts, c);
    OutcomeTold(env, old(g.circuits), ts, c, out);
  }

  /** The loop over the targets. */
  method Walk<R(0)>(env: Env, g: Gateway<R>, ts: seq<Target>, req: Request)
    returns (out: Outcome<R>, ghost c: Course<R>)
    modifies g, req
    ensures FailsOver(env, old(g.circuits), ts, c, out)
    ensures Visited(env, old(g.circuits), old(g.log), ts, c, g.circuits, g.log)
    ensures req.model == old(req.model)
  {
    c := Course([g.circuits], []);
    out := Nothing;
    for i := 0 to |ts|
      invariant req.model == old(req.model) && |c.fates| == i
      invariant Visited(env, old(g.circuits), old(g.log), ts, c, g.circuits, g.log)
      invariant forall k :: 0 <= k < i ==> !Decisive(c.fates[k])
      invariant out == if i == 0 then Nothing else Tell(ts[i - 1], c.fates[i - 1])
    {
      var fate;
      fate, c := Visit(env, g, ts, i, req, old(g.circuits), old(g.log), c);
      out := Tell(ts[i], fate);
      if Decisive(fate) {
        break;
      }
    }
  }

  ghost predicate OnlyCalls<R>(events: seq<Event<R>>) {
    forall k :: 0 <= k < |events| ==> events[k].Called?
  }

  lemma {:induction false} DueOnlyCalls<R>(ts: seq<Target>, fates: seq<Fate<R>>, n: nat)
    requires n <= |fates| <= |ts|
    ensures OnlyCalls(Due(ts, fates, n))
  {
    if n > 0 {
      DueOnlyCalls(ts, fates, n - 1);
    }
  }

  /** The last call due is that of the last contacted target. */
  lemma {:induction false} LastDue<R>(ts: seq<Target>, fates: seq<Fate<R>>, n: nat) returns (found: bool, i: nat)
    requires n <= |fates| <= |ts|
    ensures !found ==> Due(ts, fates, n) == [] && forall i :: 0 <= i < n ==> !Contacted(fates[i])
    ensures found ==> LastContacted(ts, fates, n, i) && EndsIn(Due(ts, fates, n), CallOf(ts[i], fates[i]))
  {
    found, i := false, 0;
    if n > 0 {
      found, i := LastDue(ts, fates, n - 1);
      DueGrows(Due(ts, fates, n - 1), ts[n - 1], fates[n - 1]);
      if Contacted(fates[n - 1]) {
        found, i := true, n - 1;
      }
    }
  }

  function CallOf<R>(t: Target, f: Fate<R>): Event<R>
    requires Contacted(f)
  {
    Called(t.providerID, t.model, ReplyOf(f))
  }

  ghost predicate EndsIn<R>(events: seq<Event<R>>, e: Event<R>) {
    events != [] && events[|events| - 1] == e
  }

  lemma DueGrows<R>(calls: seq<Event<R>>, t: Target, f: Fate<R>)
    ensures Contacted(f) ==> EndsIn(calls + DueFor(t, f), CallOf(t, f))
    ensures !Contacted(f) ==> calls + DueFor(t, f) == calls
  {
  }

  ghost predicate LastContacted<R>(ts: seq<Target>, fates: seq<Fate<R>>, n: nat, i: nat)
    requires n <= |fates| <= |ts|
  {
    i < n && Contacted(fates[i]) && forall j :: i < j < n ==> !Contacted(fates[j])
  }

  lemma {:induction false} EarlierCallsFailed<R>(env: Env, cbs: Circuits, ts: seq<Target>, c: Course<R>, n: nat)
    requires IsCourse(env, cbs, ts, c) && n <= |c.fates| && forall i :: 0 <= i < n ==> !Decisive(c.fates[i])
    ensures forall k :: 0 <= k < |Due(ts, c.fates, n)| ==> FailedRetriably(Due(ts, c.fates, n)[k])
  {
    if n > 0 {
      EarlierCallsFailed(env, cbs, ts, c, n - 1);
      assert Follows(env, ts, c, n - 1);
    }
  }

  lemma OutcomeTold<R>(env: Env, cbs: Circuits, ts: seq<Target>, c: Course<R>, out: Outcome<R>)
    requires FailsOver(env, cbs, ts, c, out)
    ensures OnlyCalls(Due(ts, c.fates, |c.fates|)) && Told(env, ts, c, Due(ts, c.fates, |c.fates|), out)
  {
    var n := |c.fates|;
    DueOnlyCalls(ts, c.fates, n);
    var found, i := LastDue(ts, c.fates, n);
    if n > 0 {
      EarlierCallsFailed(env, cbs, ts, c, n - 1);
    }
    if ts != [] {
      assert Follows(env, ts, c, n - 1);
    }
    if found {
      assert Follows(env, ts, c, i);
      assert i < n - 1 ==> !Decisive(c.fates[i]);
    }
  }

  lemma CourseInOrder<R>(env: Env, ts: seq<Target>, c: Course<R>)
    requires |c.fates| <= |ts|
    ensures InOrder(env, ts, c, Done(env, ts, c.fates, |c.fates|))
  {
    EventsInOrder(env, ts, c.fates, |c.fates|);
  }

  lemma CourseGrows<R>(env: Env, cbs: Circuits, ts: seq<Target>, c: Course<R>, f: Fate<R>)
    requires IsCourse(env, cbs, ts, c) && |c.fates| < |ts|
    requires Fares(env, c.met[|c.fates|], |c.fates|, ts[|c.fates|], f)
    ensures var i := |c.fates|;
      var c' := Course(c.met + [Next(env, c.met[i], i, ts[i], f)], c.fates + [f]);
      && IsCourse(env, cbs, ts, c')
      && Done(env, ts, c'.fates, i + 1) == Done(env, ts, c.fates, i) + Acts(env, i, ts[i], f)
  {
    var n := |c.fates|;
    var c' := Course(c.met + [Next(env, c.met[n], n, ts[n], f)], c.fates + [f]);
    forall i: nat | i < n + 1
      ensures Follows(env, ts, c', i)
    {
      if i < n {
        assert Follows(env, ts, c, i);
      }
    }
    DoneSame(env, ts, c.fates, c'.fates, n);
  }

  lemma {:induction false} DoneSame<R>(env: Env, ts: seq<Target>, a: seq<Fate<R>>, b: seq<Fate<R>>, n: nat)
    requires n <= |a| <= |b| <= |ts| && forall i :: 0 <= i < n ==> a[i] == b[i]
    ensures Done(env, ts, a, n) == Done(env, ts, b, n)
  {
    if n > 0 {
      DoneSame(env, ts, a, b, n - 1);
    }
  }

  /** Resolving and then failing over, along the route's targets in stable priority order: a model that resolves
      always gets a response or an error. */
  method ChatCompletion<R(0)>(env: Env, g: Gateway<R>, router: Router, store: map<string, Route>, req: Request)
    returns (resolved: Resolved, out: Outcome<R>, ghost c: Course<R>, ghost events: seq<Event<R>>)
    requires router.Valid()
    modifies g, router, req
    ensures router.Valid() && req.model == old(req.model)
    ensures req.model in old(router.cache) ==>
      resolved == Targets(old(router.cache)[req.model]) && router.source == old(router.source)
    ensures req.model !in old(router.cache) && resolved.Targets? ==>
      && req.model in store && store[req.model].Route?
      && router.source == old(router.source)[req.model := store[req.model].targets]
    ensures req.model !in old(router.cache) && !resolved.Targets? ==>
      resolved == if req.model !in store || store[req.model].NoRoute? then Unknown
                  else if store[req.model].Malformed? then Unreadable else Empty
    ensures resolved.Empty? ==> store[req.model].targets == []
    ensures !resolved.Targets? ==> router.source == old(router.source)
    ensures router.cache ==
      if resolved.Targets? then old(router.cache)[req.model := resolved.ts] else old(router.cache)
    ensures resolved.Targets? <==> !out.Nothing?
    ensures resolved.Targets? ==>
      && req.model in router.source && StablySorted(resolved.ts, router.source[req.model])
      && FailsOver(env, old(g.circuits), resolved.ts, c, out) && g.circuits == c.met[|c.fates|]
      && g.log == old(g.log) + events && InOrder(env, resolved.ts, c, events)
      && OnlyCalls(CallsIn(events)) && Told(env, resolved.ts, c, CallsIn(events), out)
    ensures !resolved.Targets? ==> g.circuits == old(g.circuits) && g.log == old(g.log)
  {
    resolved := router.ResolveModel(store, req.model);
    if !resolved.Targets? {
      return resolved, Nothing, Course([], []), [];
    }
    out, c, events := Complete(env, g, resolved.ts, req);
  }

  // ------------------------------------------------- what was done, in order

  ghost function CallsIn<R>(events: seq<Event<R>>): (calls: seq<Event<R>>)
  {
    if events == [] then [] else CallsIn(events[..|events| - 1]) + CallIn(events[|events| - 1])
  }

  ghost function CallIn<R>(e: Event<R>): seq<Event<R>> {
    if e.Called? then [e] else []
  }

  lemma {:induction false} CallsConcat<R>(a: seq<Event<R>>, b: seq<Event<R>>)
    ensures CallsIn(a + b) == CallsIn(a) + CallsIn(b)
  {
    if b == [] {
      assert a + b == a && CallsIn(a) + [] == CallsIn(a);
    } else {
      var before, e := b[..|b| - 1], b[|b| - 1];
      CallsConcat(a, before);
      assert (a + b)[..|a| + |b| - 1] == a + before && (a + b)[|a| + |b| - 1] == e;
      Assoc(CallsIn(a), CallsIn(before), CallIn(e));
    }
  }

  /** The calls due for the first `n` targets: each contacted one, once, with its own model. */
  ghost function Due<R>(ts: seq<Target>, fates: seq<Fate<R>>, n: nat): (calls: seq<Event<R>>)
    requires n <= |fates| <= |ts|
  {
    if n == 0 then []
    else Due(ts, fates, n - 1) + DueFor(ts[n - 1], fates[n - 1])
  }

  lemma CallsInOne<R>(e: Event<R>)
    ensures CallsIn([e]) == CallIn(e)
  {
    assert [e][..0] == [];
  }

  lemma CallsAppended<R>(a: seq<Event<R>>, calls: seq<Event<R>>, b: seq<Event<R>>, more: seq<Event<R>>)
    requires CallsIn(a) == calls && CallsIn(b) == more
    ensures CallsIn(a + b) == calls + more
  {
    CallsConcat(a, b);
  }

  lemma CallsInDue<R>(t: Target, f: Fate<R>)
    ensures CallsIn(DueFor(t, f)) == DueFor(t, f)
  {
    if Contacted(f) {
      CallsInOne(Called(t.providerID, t.model, ReplyOf(f)));
    }
  }

  lemma CallsInReport<R>(env: Env, i: nat, t: Target, f: Fate<R>)
    ensures CallsIn(ReportFor(env, i, t, f)) == []
  {
    if Verdict(env, i, f).Some? {
      CallsInOne<R>(Reported(t.providerID, Verdict(env, i, f).value));
    }
  }

  lemma CallsBefore<R>(calls: seq<Event<R>>, others: seq<Event<R>>)
    requires CallsIn(calls) == calls && CallsIn(others) == []
    ensures CallsIn(calls + others) == calls
  {
    CallsConcat(calls, others);
    assert calls + [] == calls;
  }

  lemma CallsInActs<R>(env: Env, i: nat, t: Target, f: Fate<R>)
    ensures CallsIn(Acts(env, i, t, f)) == DueFor(t, f)
  {
    CallsInDue(t, f);
    CallsInReport(env, i, t, f);
    CallsBefore(DueFor(t, f), ReportFor(env, i, t, f));
  }

  /** An answer is a success; a fault is a failure of the fault's weight. */
  ghost predicate TellsOf<R>(call: Call, reply: Reply<R>) {
    match reply
    case Answer(_) => call.Success?
    case Fault(e) => call.Failure? && call.weight == Weight(e)
  }

  /** A call is followed by a report if and only if there are breakers and it was answered or its fault weighs
      something; a report follows the call it is about, and says how that went. */
  ghost predicate ReportRight<R>(env: Env, events: seq<Event<R>>, k: nat)
    requires k < |events|
  {
    && (events[k].Reported? ==>
        k > 0 && events[k - 1].Called? && events[k - 1].providerID == events[k].providerID &&
        TellsOf(events[k].call, events[k - 1].reply))
    && (events[k].Called? ==>
        (k + 1 < |events| && events[k + 1].Reported? <==>
         env.breaking && (events[k].reply.Answer? || Weight(events[k].reply.error) > 0.0)))
  }

  ghost predicate ReportsRight<R>(env: Env, events: seq<Event<R>>) {
    forall k: nat :: k < |events| ==> ReportRight(env, events, k)
  }

  /** Exactly the contacted targets are called, in order, each with its own model; and reports follow calls. */
  lemma EventsInOrder<R>(env: Env, ts: seq<Target>, fates: seq<Fate<R>>, n: nat)
    requires n <= |fates| <= |ts|
    ensures CallsIn(Done(env, ts, fates, n)) == Due(ts, fates, n)
    ensures ReportsRight(env, Done(env, ts, fates, n))
  {
    CallsInOrder(env, ts, fates, n);
    ReportsInOrder(env, ts, fates, n);
  }

  lemma DoneNext<R>(env: Env, ts: seq<Target>, fates: seq<Fate<R>>, n: nat)
    requires n < |fates| <= |ts|
    ensures Done(env, ts, fates, n + 1) == Done(env, ts, fates, n) + Acts(env, n, ts[n], fates[n])
    ensures Due(ts, fates, n + 1) == Due(ts, fates, n) + DueFor(ts[n], fates[n])
  {
  }

  lemma {:induction false} CallsInOrder<R>(env: Env, ts: seq<Target>, fates: seq<Fate<R>>, n: nat)
    requires n <= |fates| <= |ts|
    ensures CallsIn(Done(env, ts, fates, n)) == Due(ts, fates, n)
  {
    if n > 0 {
      var acts, due := Acts(env, n - 1, ts[n - 1], fates[n - 1]), DueFor(ts[n - 1], fates[n - 1]);
      CallsInOrder(env, ts, fates, n - 1);
      CallsInActs(env, n - 1, ts[n - 1], fates[n - 1]);
      CallsAppended(Done(env, ts, fates, n - 1), Due(ts, fates, n - 1), acts, due);
      DoneNext(env, ts, fates, n - 1);
    } else {
      assert Done(env, ts, fates, n) == [] && Due(ts, fates, n) == [];
    }
  }

  lemma ReportsGrow<R>(env: Env, ts: seq<Target>, fates: seq<Fate<R>>, n: nat)
    requires n < |fates| <= |ts| && ReportsRight(env, Done(env, ts, fates, n))
    ensures ReportsRight(env, Done(env, ts, fates, n + 1))
  {
    ReportInActs(env, n, ts[n], fates[n]);
    ReportsConcat(env, Done(env, ts, fates, n), Acts(env, n, ts[n], fates[n]));
  }

  lemma {:induction false} ReportsInOrder<R>(env: Env, ts: seq<Target>, fates: seq<Fate<R>>, n: nat)
    requires n <= |fates| <= |ts|
    ensures ReportsRight(env, Done(env, ts, fates, n))
  {
    if n > 0 {
      ReportsInOrder(env, ts, fates, n - 1);
      ReportsGrow(env, ts, fates, n - 1);
    }
  }

  lemma ReportInActs<R>(env: Env, i: nat, t: Target, f: Fate<R>)
    ensures ReportsRight(env, Acts(env, i, t, f))
  {
  }

  lemma ReportsConcat<R>(env: Env, a: seq<Event<R>>, b: seq<Event<R>>)
    requires ReportsRight(env, a) && ReportsRight(env, b)
    ensures ReportsRight(env, a + b)
  {
    if b != [] {
      assert ReportRight(env, b, 0);
    }
    forall k: nat | k < |a + b|
      ensures ReportRight(env, a + b, k)
    {
      if k < |a| {
        assert ReportRight(env, a, k);
      } else {
        assert ReportRight(env, b, k - |a|);
      }
    }
  }

  /** A breaker was at most asked: it holds the same log, and can only have gone from Open to HalfOpen. */
  ghost predicate OnlyAsked(before: Machine, after: Machine) {
    && after.history == before.history && after.openedAt == before.openedAt
    && (after.phase == before.phase || (before.phase == Open && after.phase == HalfOpen))
  }

  lemma NextTouches<R>(env: Env, cbs: Circuits, i: nat, t: Target, f: Fate<R>, id: string)
    requires t.providerID == id ==> Verdict(env, i, f) == None
    ensures id in Next(env, cbs, i, t, f) <==> id in cbs
    ensures id in cbs ==> OnlyAsked(cbs[id], Next(env, cbs, i, t, f)[id])
    ensures id in cbs && id != t.providerID ==> Next(env, cbs, i, t, f)[id] == cbs[id]
  {
  }

  /** A provider for which nothing was reported has the outcomes it had; one that is no target is left alone. */
  lemma {:induction false} UnreportedKeepsLog<R>(
      env: Env, cbs: Circuits, ts: seq<Target>, c: Course<R>, n: nat, id: string)
    requires IsCourse(env, cbs, ts, c) && n <= |c.fates|
    requires forall i: nat :: i < n && ts[i].providerID == id ==> Verdict(env, i, c.fates[i]).None?
    ensures id in c.met[n] <==> id in cbs
    ensures id in cbs ==> OnlyAsked(cbs[id], c.met[n][id])
    ensures id in cbs && (forall i :: 0 <= i < n ==> ts[i].providerID != id) ==> c.met[n][id] == cbs[id]
  {
    if n > 0 {
      UnreportedKeepsLog(env, cbs, ts, c, n - 1, id);
      assert Follows(env, ts, c, n - 1);
      NextTouches(env, c.met[n - 1], n - 1, ts[n - 1], c.fates[n - 1], id);
    }
  }

  // ----------------------------------------------------------- lost probes

  /** The provider is not registered, or it failed with an error that no one is blamed for: one with an HTTP
      status other than 429 and 500 to 504, and no deadline. */
  predicate Blameless<R>(env: Env, t: Target, f: Fate<R>) {
    || t.providerID !in env.registered
    || ((f.Retriable? || f.Final?) && !f.error.deadline && f.error.status.Status? &&
        f.error.status.code != 429 && !(500 <= f.error.status.code <= 504))
  }

  /** A probe is out and its outcome has not come. */
  predicate Stuck(cbs: Circuits, id: string) {
    id in cbs && cbs[id].phase == HalfOpen && cbs[id].probing
  }

  /** The probe of an open breaker is lost, its outcome never reported, if and only if it was blameless. Otherwise
      the breaker closes when the provider served the request and opens again when not. */
  lemma ProbeLostIff<R>(env: Env, cbs: Circuits, i: nat, t: Target, f: Fate<R>)
    requires env.breaking && t.providerID in cbs && cbs[t.providerID].phase == Open
    requires LetThrough(env, cbs, t.providerID, env.asks(i)) && Fares(env, cbs, i, t, f)
    ensures Stuck(Next(env, cbs, i, t, f), t.providerID) <==> Blameless(env, t, f)
    ensures Verdict(env, i, f).None? <==> Blameless(env, t, f)
    ensures t.providerID in Next(env, cbs, i, t, f)
    ensures !Blameless(env, t, f) ==>
      Next(env, cbs, i, t, f)[t.providerID].phase == if f.Served? then Closed else Open
  {
    if f.Retriable? || f.Final? {
      BlameAndStop(f.error);
    }
  }

  /** Two such probes, of a breaker that opened 20 seconds ago with a timeout of 10: one for a provider that is not
      registered, one answered with status 400. */
  lemma LostProbes()
    ensures var cfg, t := Config(0.5, 1, 60, 10), Target("p", "m", 0);
      var cbs := map["p" := Machine(Open, false, Instant(1, 1), Instant(1, 1), [])];
      var away := Env(true, cfg, {}, _ => Instant(21, 21), _ => Instant(22, 22));
      var there, e := away.(registered := {"p"}), Error(false, Status(400), false, {});
      && Fares<int>(away, cbs, 0, t, Unregistered) && Stuck(Next<int>(away, cbs, 0, t, Unregistered), "p")
      && Fares<int>(there, cbs, 0, t, Final(e)) && Stuck(Next<int>(there, cbs, 0, t, Final(e)), "p")
  {
  }

  /** A lost probe leaves its breaker waiting: the provider is turned away, and nothing another target does helps. */
  lemma {:induction false} StuckWithin<R>(
      env: Env, cbs: Circuits, ts: seq<Target>, c: Course<R>, id: string, from: nat, n: nat)
    requires env.breaking && IsCourse(env, cbs, ts, c) && from <= n <= |c.fates| && Stuck(c.met[from], id)
    ensures Stuck(c.met[n], id)
    ensures forall i :: from <= i < n && ts[i].providerID == id ==> c.fates[i] == Rejected
  {
    if from < n {
      StuckWithin(env, cbs, ts, c, id, from, n - 1);
      assert Follows(env, ts, c, n - 1);
    }
  }

  /** A request that was handled. */
  datatype Handled<R> = Handled(env: Env, ts: seq<Target>, course: Course<R>)

  /** Request `k` meets the breakers that the one before it left. */
  ghost predicate Succeeds<R>(cbs: Circuits, hs: seq<Handled<R>>, k: nat)
    requires k < |hs|
  {
    && hs[k].env.breaking
    && (k > 0 ==> hs[k - 1].course.met != [])
    && IsCourse(hs[k].env, if k == 0 then cbs else hs[k - 1].course.met[|hs[k - 1].course.met| - 1],
                hs[k].ts, hs[k].course)
  }

  /** Requests handled one after another, with any targets, providers and clocks. */
  ghost predicate IsService<R>(cbs: Circuits, hs: seq<Handled<R>>) {
    forall k: nat :: k < |hs| ==> Succeeds(cbs, hs, k)
  }

  lemma {:induction false} StuckAcross<R>(cbs: Circuits, hs: seq<Handled<R>>, id: string, a: nat, i: nat, b: nat)
    requires IsService(cbs, hs) && a < b < |hs| && i < |hs[a].course.met| && Stuck(hs[a].course.met[i], id)
    ensures hs[b].course.met != [] && Stuck(hs[b].course.met[0], id)
  {
    assert Succeeds(cbs, hs, b) && Succeeds(cbs, hs, b - 1);
    var last := hs[b - 1];
    if a < b - 1 {
      StuckAcross(cbs, hs, id, a, i, b - 1);
      StuckWithin(last.env, last.course.met[0], last.ts, last.course, id, 0, |last.course.fates|);
    } else {
      StuckWithin(last.env, last.course.met[0], last.ts, last.course, id, i, |last.course.fates|);
    }
  }

  /** A lost probe is lost for good: once target `i` of request `a` has lost the probe of its provider, every target
      of that provider is turned away, later in that request and in every request after it. */
  lemma LostForGood<R>(cbs: Circuits, hs: seq<Handled<R>>, a: nat, i: nat, b: nat, j: nat)
    requires IsService(cbs, hs) && a <= b < |hs| && (a == b ==> i < j)
    requires i < |hs[a].course.fates| && i < |hs[a].ts| && i < |hs[a].course.met|
    requires var h := hs[a]; var id := h.ts[i].providerID;
      && id in h.course.met[i] && h.course.met[i][id].phase == Open
      && LetThrough(h.env, h.course.met[i], id, h.env.asks(i)) && Blameless(h.env, h.ts[i], h.course.fates[i])
    requires j < |hs[b].course.fates| && j < |hs[b].ts| && hs[b].ts[j].providerID == hs[a].ts[i].providerID
    ensures hs[b].course.fates[j] == Rejected
  {
    var h, g, id := hs[a], hs[b], hs[a].ts[i].providerID;
    assert Succeeds(cbs, hs, a) && Succeeds(cbs, hs, b);
    assert Follows(h.env, h.ts, h.course, i);
    ProbeLostIff(h.env, h.course.met[i], i, h.ts[i], h.course.fates[i]);
    if a < b {
      StuckAcross(cbs, hs, id, a, i + 1, b);
      StuckWithin(g.env, g.course.met[0], g.ts, g.course, id, 0, j + 1);
    } else {
      StuckWithin(g.env, g.course.met[0], g.ts, g.course, id, i + 1, j + 1);
    }
  }
}
