/**
  The usage recorder of internal/worker/usage_recorder.go.

  `Pipe` is the recorder as a value: the channel, the buffer and the batches handed to the store.
  An interleaving of producers, ticks, cancellation and the recorder's own receives is a sequence of
  events. `UsageRecorder` is the recorder as the source writes it, with one buffer reused for
  every batch; it is proved to follow the pipe, and every batch it handed over keeps its contents.
 */
module UsageRecorders {
  import opened Basics
  import opened Usage

  const CHAN_SIZE := 1000
  const BATCH_SIZE := 100

  datatype Phase = Running | Draining | Stopped

  datatype Pipe = Pipe(
    chan: seq<UsageRecord>, buf: seq<UsageRecord>, handed: seq<seq<UsageRecord>>, phase: Phase,
    accepted: seq<UsageRecord>, dropped: seq<UsageRecord>)

  const NEW_PIPE := Pipe([], [], [], Running, [], [])

  datatype Event = Produce(r: UsageRecord) | Receive | Tick | Cancel | Finish

  function HandOver(p: Pipe): Pipe {
    p.(handed := p.handed + [p.buf], buf := [])
  }

  /** One event; one that cannot happen where the recorder stands changes nothing. */
  function PipeStep(p: Pipe, e: Event): (p': Pipe)
  {
    match e
    case Produce(r) =>
      if |p.chan| < CHAN_SIZE then p.(chan := p.chan + [r], accepted := p.accepted + [r])
      else p.(dropped := p.dropped + [r])
    case Receive =>
      if p.phase == Stopped || p.chan == [] then p
      else
        var q := p.(chan := p.chan[1..], buf := p.buf + [p.chan[0]]);
        if |q.buf| >= BATCH_SIZE then HandOver(q) else q
    case Tick => if p.phase == Running && p.buf != [] then HandOver(p) else p
    case Cancel => if p.phase == Running then p.(phase := Draining) else p
    case Finish =>
      if p.phase != Draining || p.chan != [] then p
      else if p.buf != [] then HandOver(p).(phase := Stopped)
      else p.(phase := Stopped)
  }

  function PipeRun(p: Pipe, events: seq<Event>): (p': Pipe)
  {
    if events == [] then p else PipeStep(PipeRun(p, events[..|events| - 1]), events[|events| - 1])
  }

  ghost predicate Sized(batches: seq<seq<UsageRecord>>) {
    forall i :: 0 <= i < |batches| ==> 1 <= |batches[i]| <= BATCH_SIZE
  }

  /** Nothing accepted is lost, doubled or reordered, and every batch has 1 to 100 records. */
  ghost predicate Conserved(p: Pipe) {
    && p.accepted == Flatten(p.handed) + p.buf + p.chan
    && |p.chan| <= CHAN_SIZE
    && |p.buf| < BATCH_SIZE
    && Sized(p.handed)
    && (p.phase == Stopped ==> p.buf == [])
  }

  lemma StepConserves(p: Pipe, e: Event)
    requires Conserved(p)
    ensures Conserved(PipeStep(p, e))
  {
    match e {
      case Produce(r) => Assoc(Flatten(p.handed) + p.buf, p.chan, [r]);
      case Receive =>
        if p.chan != [] && p.phase != Stopped {
          TakeConserves(p);
        }
      case Tick =>
        if p.buf != [] {
          HandOverConserves(p);
        }
      case Cancel =>
      case Finish =>
        if p.buf != [] {
          HandOverConserves(p);
        }
    }
  }

  lemma HandOverConserves(p: Pipe)
    requires p.accepted == Flatten(p.handed) + p.buf + p.chan && Sized(p.handed)
    requires 1 <= |p.buf| <= BATCH_SIZE && |p.chan| <= CHAN_SIZE
    ensures Conserved(HandOver(p)) && Conserved(HandOver(p).(phase := Stopped))
  {
    FlattenAppend(p.handed, p.buf);
    EmptyBuffer(Flatten(p.handed), p.buf);
    SizedAppend(p.handed, p.buf);
  }

  lemma TakeConserves(p: Pipe)
    requires Conserved(p) && p.chan != [] && p.phase != Stopped
    ensures Conserved(PipeStep(p, Receive))
  {
    var q := p.(chan := p.chan[1..], buf := p.buf + [p.chan[0]]);
    Moves(Flatten(p.handed), p.buf, p.chan);
    if |q.buf| >= BATCH_SIZE {
      HandOverConserves(q);
    }
  }

  lemma SizedAppend(batches: seq<seq<UsageRecord>>, batch: seq<UsageRecord>)
    requires Sized(batches) && 1 <= |batch| <= BATCH_SIZE
    ensures Sized(batches + [batch])
  {
  }

  lemma EmptyBuffer<T>(a: seq<T>, b: seq<T>)
    ensures a + b + [] == a + b
  {
  }

  /** The first of `c` moves to the end of `b`. */
  lemma Moves<T>(a: seq<T>, b: seq<T>, c: seq<T>)
    requires c != []
    ensures a + b + c == a + (b + [c[0]]) + c[1..]
  {
    assert c == [c[0]] + c[1..];
    Assoc(b, [c[0]], c[1..]);
    Assoc(a, b, c);
    Assoc(a, b + [c[0]], c[1..]);
  }

  lemma AllHanded(p: Pipe)
    requires Conserved(p) && p.buf == [] && p.chan == []
    ensures Flatten(p.handed) == p.accepted
  {
    EmptyBuffer(Flatten(p.handed), p.buf);
  }

  lemma HandedGrows(p: Pipe, e: Event)
    ensures p.handed <= PipeStep(p, e).handed
  {
  }

  /** Under every interleaving of producers, ticks and cancellation; and a batch once handed over stays. */
  lemma {:induction false} RunConserves(p: Pipe, events: seq<Event>)
    requires Conserved(p)
    ensures Conserved(PipeRun(p, events))
    ensures p.handed <= PipeRun(p, events).handed
  {
    if events != [] {
      RunConserves(p, events[..|events| - 1]);
      StepConserves(PipeRun(p, events[..|events| - 1]), events[|events| - 1]);
      HandedGrows(PipeRun(p, events[..|events| - 1]), events[|events| - 1]);
    }
  }

  lemma {:induction false} RunConcat(p: Pipe, a: seq<Event>, b: seq<Event>)
    ensures PipeRun(p, a + b) == PipeRun(PipeRun(p, a), b)
  {
    if b == [] {
      assert a + b == a;
    } else {
      RunConcat(p, a, b[..|b| - 1]);
      assert (a + b)[..|a| + |b| - 1] == a + b[..|b| - 1];
    }
  }

  lemma RunOneMore(p: Pipe, a: seq<Event>, e: Event)
    ensures PipeRun(p, a + [e]) == PipeStep(PipeRun(p, a), e)
  {
    assert (a + [e])[..|a|] == a;
  }

  lemma RunNext(p: Pipe, script: seq<Event>, i: nat)
    requires i < |script|
    ensures PipeRun(p, script[..i + 1]) == PipeStep(PipeRun(p, script[..i]), script[i])
  {
    RunOneMore(p, script[..i], script[i]);
    assert script[..i + 1] == script[..i] + [script[i]];
  }

  /** The records that the events of a run offer, in order. */
  ghost function Produced(events: seq<Event>): (rs: seq<UsageRecord>)
  {
    if events == [] then [] else Produced(events[..|events| - 1]) + Offered(events[|events| - 1])
  }

  function Offered(e: Event): seq<UsageRecord> {
    if e.Produce? then [e.r] else []
  }

  ghost predicate EndsWithCancel(events: seq<Event>) {
    events != [] && events[|events| - 1] == Cancel && Cancel !in events[..|events| - 1]
  }

  lemma ProducedNext(events: seq<Event>, e: Event)
    ensures Produced(events + [e]) == Produced(events) + Offered(e)
  {
    assert (events + [e])[..|events|] == events;
  }

  lemma {:induction false} ProducedConcat(a: seq<Event>, b: seq<Event>)
    ensures Produced(a + b) == Produced(a) + Produced(b)
  {
    if b == [] {
      assert a + b == a && Produced(a) + [] == Produced(a);
    } else {
      var before, e := b[..|b| - 1], b[|b| - 1];
      ProducedConcat(a, before);
      assert a + b == (a + before) + [e];
      ProducedNext(a + before, e);
      Assoc(Produced(a), Produced(before), Offered(e));
    }
  }

  /** The events lead from `p` to `q`, and offer the records `rs`. */
  ghost predicate Lead(p: Pipe, events: seq<Event>, q: Pipe, rs: seq<UsageRecord>) {
    q == PipeRun(p, events) && Produced(events) == rs
  }

  lemma LeadOn(p: Pipe, events: seq<Event>, q: Pipe, rs: seq<UsageRecord>, e: Event)
    requires Lead(p, events, q, rs)
    ensures Lead(p, events + [e], PipeStep(q, e), rs + Offered(e))
    ensures !e.Produce? ==> Lead(p, events + [e], PipeStep(q, e), rs)
  {
    RunOneMore(p, events, e);
    ProducedNext(events, e);
    assert rs + [] == rs;
  }

  lemma LeadFurther(
      p: Pipe, a: seq<Event>, q: Pipe, rs: seq<UsageRecord>, b: seq<Event>, q': Pipe, more: seq<UsageRecord>)
    requires Lead(p, a, q, rs) && Lead(q, b, q', more)
    ensures Lead(p, a + b, q', rs + more)
  {
    RunConcat(p, a, b);
    ProducedConcat(a, b);
  }

  /** A record is dropped if and only if the channel is full; a receive hands over exactly the hundredth record's batch;
      and a tick or the end hands over whatever is in the buffer, if anything. */
  lemma EventsMean(p: Pipe, e: Event)
    ensures e.Produce? && |p.chan| == CHAN_SIZE ==>
      PipeStep(p, e).dropped == p.dropped + [e.r] && PipeStep(p, e).accepted == p.accepted
    ensures e.Produce? && |p.chan| < CHAN_SIZE ==>
      PipeStep(p, e).dropped == p.dropped && PipeStep(p, e).accepted == p.accepted + [e.r]
    ensures !e.Produce? ==> PipeStep(p, e).dropped == p.dropped && PipeStep(p, e).accepted == p.accepted
    ensures e.Receive? && p.chan != [] && p.phase != Stopped ==>
      && PipeStep(p, e).chan == p.chan[1..]
      && (|p.buf| < 99 ==> PipeStep(p, e).buf == p.buf + [p.chan[0]] && PipeStep(p, e).handed == p.handed)
      && (|p.buf| == 99 ==> PipeStep(p, e).buf == [] && PipeStep(p, e).handed == p.handed + [p.buf + [p.chan[0]]])
    ensures (e.Tick? && p.phase == Running) || (e.Finish? && p.phase == Draining && p.chan == []) ==>
      && PipeStep(p, e).buf == []
      && PipeStep(p, e).handed == p.handed + if p.buf == [] then [] else [p.buf]
  {
    assert p.handed + [] == p.handed;
  }

  /** All that the recorder was ever offered. */
  ghost function Received(p: Pipe): multiset<UsageRecord> {
    multiset(p.accepted) + multiset(p.dropped)
  }

  lemma OfferStep(p: Pipe, e: Event)
    requires |p.chan| <= CHAN_SIZE
    ensures Received(PipeStep(p, e)) == Received(p) + multiset(Offered(e))
  {
    EventsMean(p, e);
  }

  /** Over every run, what was offered is what was accepted and what was dropped. */
  lemma {:induction false} OfferedIsAcceptedOrDropped(p: Pipe, events: seq<Event>)
    requires Conserved(p)
    ensures Received(PipeRun(p, events)) == Received(p) + multiset(Produced(events))
  {
    if events != [] {
      var before, e := events[..|events| - 1], events[|events| - 1];
      OfferedIsAcceptedOrDropped(p, before);
      RunConserves(p, before);
      OfferStep(PipeRun(p, before), e);
      AddsUp(Received(p), Produced(before), Offered(e));
    }
  }

  lemma AddsUp<T>(all: multiset<T>, a: seq<T>, b: seq<T>)
    ensures all + multiset(a) + multiset(b) == all + multiset(a + b)
  {
  }

  lemma FlattenNext<T>(batches: seq<seq<T>>, i: nat)
    requires i < |batches|
    ensures Flatten(batches[..i + 1]) == Flatten(batches[..i]) + batches[i]
  {
    assert batches[..i + 1] == batches[..i] + [batches[i]];
    FlattenAppend(batches[..i], batches[i]);
  }

  /** A record whose identifier was filled in, and nothing else. */
  ghost predicate Stamped(stored: UsageRecord, r: UsageRecord) {
    stored == r.(id := stored.id) && stored.id != "" && (r.id != "" ==> stored.id == r.id)
  }

  ghost predicate AllStamped(stored: seq<UsageRecord>, batch: seq<UsageRecord>) {
    |stored| == |batch| && forall i :: 0 <= i < |batch| ==> Stamped(stored[i], batch[i])
  }

  /** How many of the first `n` records lack an identifier. */
  function Missing(rs: seq<UsageRecord>, n: nat): (k: nat)
    requires n <= |rs|
  {
    if n == 0 then 0 else Missing(rs, n - 1) + if rs[n - 1].id == "" then 1 else 0
  }

  function Stamp(r: UsageRecord, id: string): UsageRecord {
    if r.id == "" then r.(id := id) else r
  }

  /** Record `i` of a batch, with the identifier that is due if it lacks one. */
  ghost predicate StampedAt(stored: UsageRecord, batch: seq<UsageRecord>, newID: nat -> string, from: nat, i: nat)
    requires i < |batch|
  {
    stored == Stamp(batch[i], newID(from + Missing(batch, i)))
  }

  /** The batch with the next identifiers, from number `from` on, filled in where one is missing. */
  ghost predicate StampedFrom(stored: seq<UsageRecord>, batch: seq<UsageRecord>, newID: nat -> string, from: nat) {
    |stored| == |batch| &&
    forall i :: 0 <= i < |stored| ==> StampedAt(stored[i], batch, newID, from, i)
  }

  lemma {:induction false} MissingGrows(rs: seq<UsageRecord>, i: nat, j: nat)
    requires i < j <= |rs|
    ensures Missing(rs, j) >= Missing(rs, i) + if rs[i].id == "" then 1 else 0
  {
    if i < j - 1 {
      MissingGrows(rs, i, j - 1);
    }
  }

  /** Identifiers filled in are distinct within a batch. */
  lemma FilledIDsDistinct(
      stored: seq<UsageRecord>, batch: seq<UsageRecord>, newID: nat -> string, from: nat, i: nat, j: nat)
    requires StampedFrom(stored, batch, newID, from) && i < j < |batch|
    requires forall a: nat, b: nat :: newID(a) == newID(b) ==> a == b
    requires batch[i].id == "" && batch[j].id == ""
    ensures stored[i].id != stored[j].id
  {
    assert StampedAt(stored[i], batch, newID, from, i) && StampedAt(stored[j], batch, newID, from, j);
    MissingGrows(batch, i, j);
  }

  /** And from those of every later batch. */
  lemma FilledIDsNotReused(
      stored: seq<UsageRecord>, batch: seq<UsageRecord>, newID: nat -> string, from: nat, i: nat, next: nat)
    requires StampedFrom(stored, batch, newID, from) && i < |batch| && batch[i].id == ""
    requires forall a: nat, b: nat :: newID(a) == newID(b) ==> a == b
    requires next >= from + Missing(batch, |batch|)
    ensures stored[i].id != newID(next)
  {
    assert StampedAt(stored[i], batch, newID, from, i);
    MissingGrows(batch, i, |batch|);
  }

  lemma StampedIsStamped(stored: seq<UsageRecord>, batch: seq<UsageRecord>, newID: nat -> string, from: nat)
    requires StampedFrom(stored, batch, newID, from) && forall k: nat :: newID(k) != ""
    ensures AllStamped(stored, batch)
  {
    forall i | 0 <= i < |batch|
      ensures Stamped(stored[i], batch[i])
    {
      assert StampedAt(stored[i], batch, newID, from, i);
      assert newID(from + Missing(batch, i)) != "";
    }
  }

  /** How many identifiers the first `n` batches lack. */
  ghost function MissingBefore(batches: seq<seq<UsageRecord>>, n: nat): (k: nat)
    requires n <= |batches|
  {
    if n == 0 then 0 else MissingBefore(batches, n - 1) + Missing(batches[n - 1], |batches[n - 1]|)
  }

  lemma {:induction false} MissingBeforeSame(batches: seq<seq<UsageRecord>>, more: seq<seq<UsageRecord>>, n: nat)
    requires n <= |batches| && batches <= more
    ensures MissingBefore(batches, n) == MissingBefore(more, n)
  {
    if n > 0 {
      MissingBeforeSame(batches, more, n - 1);
    }
  }

  lemma {:induction false} MissingBeforeGrows(batches: seq<seq<UsageRecord>>, a: nat, b: nat)
    requires a < b <= |batches|
    ensures MissingBefore(batches, b) >= MissingBefore(batches, a) + Missing(batches[a], |batches[a]|)
  {
    if a < b - 1 {
      MissingBeforeGrows(batches, a, b - 1);
    }
  }

  /** Batch `i` as stored: its missing identifiers are the next ones after those of the batches before it. */
  ghost predicate StoredRight(
      stored: seq<UsageRecord>, batches: seq<seq<UsageRecord>>, newID: nat -> string, i: nat)
    requires i < |batches|
  {
    StampedFrom(stored, batches[i], newID, MissingBefore(batches, i))
  }

  lemma StoredRightSame(
      stored: seq<UsageRecord>, batches: seq<seq<UsageRecord>>, more: seq<seq<UsageRecord>>, newID: nat -> string,
      i: nat)
    requires i < |batches| && batches <= more && StoredRight(stored, batches, newID, i)
    ensures StoredRight(stored, more, newID, i)
  {
    MissingBeforeSame(batches, more, i);
  }

  lemma StoredRightLast(
      stored: seq<UsageRecord>, batches: seq<seq<UsageRecord>>, batch: seq<UsageRecord>, newID: nat -> string)
    requires StampedFrom(stored, batch, newID, MissingBefore(batches, |batches|))
    ensures StoredRight(stored, batches + [batch], newID, |batches|)
    ensures MissingBefore(batches + [batch], |batches| + 1) ==
            MissingBefore(batches, |batches|) + Missing(batch, |batch|)
  {
    MissingBeforeSame(batches, batches + [batch], |batches|);
  }

  class UsageRecorder {
    var ch: seq<UsageRecord>
    var store: seq<array<UsageRecord>>
    const newID: nat -> string
    var issued: nat
    ghost var pipe: Pipe

    ghost predicate Valid()
      reads this, store
    {
      ch == pipe.chan && Conserved(pipe) && (forall k: nat :: newID(k) != "") && Stores(pipe.handed)
    }

    /** The store holds these batches with their missing identifiers filled in, one new one after another. */
    ghost predicate Stores(batches: seq<seq<UsageRecord>>)
      reads this`store, this`issued, store
    {
      && |store| == |batches| && issued == MissingBefore(batches, |batches|)
      && forall i :: 0 <= i < |store| ==> StoredRight(store[i][..], batches, newID, i)
    }

    constructor (ids: nat -> string)
      requires forall k: nat :: ids(k) != ""
      ensures Valid() && pipe == NEW_PIPE && store == [] && newID == ids
    {
      ch, store, newID, issued, pipe := [], [], ids, 0, NEW_PIPE;
    }

    /** What is stored is what was handed over, but for identifiers that were missing. */
    lemma StoredAsHanded(i: nat)
      requires Valid() && i < |store|
      ensures AllStamped(store[i][..], pipe.handed[i])
    {
      assert StoredRight(store[i][..], pipe.handed, newID, i);
      StampedIsStamped(store[i][..], pipe.handed[i], newID, MissingBefore(pipe.handed, i));
    }

    /** No identifier is filled in twice, in one batch or in two. */
    lemma StoredIDsDistinct(a: nat, i: nat, b: nat, j: nat)
      requires Valid() && forall x: nat, y: nat :: newID(x) == newID(y) ==> x == y
      requires a < |store| && b < |store| && i < |pipe.handed[a]| && j < |pipe.handed[b]|
      requires pipe.handed[a][i].id == "" && pipe.handed[b][j].id == "" && (a < b || (a == b && i < j))
      ensures i < store[a].Length && j < store[b].Length && store[a][i].id != store[b][j].id
    {
      var batches := pipe.handed;
      assert StoredRight(store[a][..], batches, newID, a) && StoredRight(store[b][..], batches, newID, b);
      if a == b {
        FilledIDsDistinct(store[a][..], batches[a], newID, MissingBefore(batches, a), i, j);
      } else {
        var next := MissingBefore(batches, b) + Missing(batches[b], j);
        MissingBeforeGrows(batches, a, b);
        FilledIDsNotReused(store[a][..], batches[a], newID, MissingBefore(batches, a), i, next);
        assert StampedAt(store[b][..][j], batches[b], newID, MissingBefore(batches, b), j);
      }
    }

    /** Never blocks: a full channel drops the record. */
    method Record(r: UsageRecord)
      requires Valid()
      modifies this`ch, this`pipe
      ensures Valid() && pipe == PipeStep(old(pipe), Produce(r))
    {
      StepConserves(pipe, Produce(r));
      if |ch| < CHAN_SIZE {
        ch := ch + [r];
      }
      pipe := PipeStep(pipe, Produce(r));
    }

    /** A copy of the first `n` records of the buffer, with the missing identifiers filled in. */
    method Batch(buf: array<UsageRecord>, n: nat) returns (batch: array<UsageRecord>)
      requires n <= buf.Length
      modifies this`issued
      ensures fresh(batch) && StampedFrom(batch[..], buf[..n], newID, old(issued))
      ensures issued == old(issued) + Missing(buf[..n], n)
    {
      batch := new UsageRecord[n](i requires 0 <= i < n reads buf => buf[i]);
      ghost var rs, from := buf[..n], issued;
      for i := 0 to n
        invariant issued == from + Missing(rs, i)
        invariant forall j :: i <= j < n ==> batch[j] == rs[j]
        invariant forall j :: 0 <= j < i ==> StampedAt(batch[j], rs, newID, from, j)
      {
        if batch[i].id == "" {
          batch[i] := batch[i].(id := newID(issued));
          issued := issued + 1;
        }
      }
      assert buf[..n] == rs;
      assert StampedFrom(batch[..], rs, newID, from);
    }

    /** Hands a copy of the buffer to the store; the buffer itself stays with the caller. */
    method Flush(buf: array<UsageRecord>, n: nat, ghost batches: seq<seq<UsageRecord>>)
      requires n <= buf.Length && (forall k: nat :: newID(k) != "") && Stores(batches)
      modifies this`store, this`issued
      ensures Stores(batches + [buf[..n]]) && issued == old(issued) + Missing(buf[..n], n)
      ensures |store| == |old(store)| + 1 && old(store) <= store && fresh(store[|old(store)|])
      ensures forall a :: a in store ==> a in old(store) || fresh(a)
    {
      var batch := Batch(buf, n);
      store := store + [batch];
      ghost var more := batches + [buf[..n]];
      StoredRightLast(batch[..], batches, buf[..n], newID);
      forall i | 0 <= i < |store|
        ensures StoredRight(store[i][..], more, newID, i)
      {
        if i < |batches| {
          assert store[i] == old(store)[i] && old(StoredRight(store[i][..], batches, newID, i));
          StoredRightSame(store[i][..], batches, more, newID, i);
        }
      }
    }

    /** Takes the next record into the buffer, and hands the buffer over when it is full. */
    method Take(buf: array<UsageRecord>, n: nat) returns (n': nat)
      requires Valid() && buf.Length == BATCH_SIZE && n < BATCH_SIZE && buf[..n] == pipe.buf
      requires buf !in store && ch != [] && pipe.phase != Stopped
      modifies this, buf
      ensures Valid() && pipe == PipeStep(old(pipe), Receive)
      ensures n' < BATCH_SIZE && buf[..n'] == pipe.buf
      ensures forall a :: a in store ==> a in old(store) || fresh(a)
    {
      StepConserves(pipe, Receive);
      buf[n] := ch[0];
      n' := n + 1;
      assert buf[..n'] == pipe.buf + [ch[0]];
      ch := ch[1..];
      pipe := PipeStep(pipe, Receive);
      if n' >= BATCH_SIZE {
        Flush(buf, n', old(pipe.handed));
        n' := 0;
      }
    }

    /** Hands over what is left in the buffer, if anything. */
    method FlushSome(buf: array<UsageRecord>, n: nat, ghost e: Event)
      requires Valid() && n <= buf.Length && buf[..n] == pipe.buf
      requires (e == Tick && pipe.phase == Running) || (e == Finish && pipe.phase == Draining && ch == [])
      modifies this
      ensures Valid() && ch == old(ch) && pipe == PipeStep(old(pipe), e) && pipe.buf == []
      ensures forall a :: a in store ==> a in old(store) || fresh(a)
    {
      StepConserves(pipe, e);
      pipe := PipeStep(pipe, e);
      if n > 0 {
        Flush(buf, n, old(pipe.handed));
      }
    }

    /** One turn of the select loop other than cancellation. */
    method Turn(buf: array<UsageRecord>, n: nat, e: Event) returns (n': nat)
      requires Valid() && pipe.phase == Running && buf.Length == BATCH_SIZE
      requires n < BATCH_SIZE && buf[..n] == pipe.buf && buf !in store && e != Cancel
      modifies this, buf
      ensures Valid() && pipe == PipeStep(old(pipe), e) && pipe.phase == Running
      ensures n' < BATCH_SIZE && buf[..n'] == pipe.buf
      ensures forall a :: a in store ==> a in old(store) || fresh(a)
    {
      n' := n;
      match e {
        case Produce(r) => Record(r);
        case Receive =>
          if ch != [] {
            n' := Take(buf, n);
          }
        case Tick =>
          FlushSome(buf, n, Tick);
          n' := 0;
        case Finish =>
      }
    }

    /** Runs until the script of the select loop ends or cancels it: `taken` is the part of the script that was run. On
        cancellation the rest of the accepted records is drained, in the events `rest`, while the first `met` of
        the `arrivals` still come in between receives. */
    method Run(script: seq<Event>, arrivals: seq<seq<UsageRecord>>)
      returns (cancelled: bool, ghost taken: seq<Event>, ghost rest: seq<Event>, ghost met: nat)
      requires Valid() && pipe.phase == Running && pipe.buf == []
      modifies this
      ensures Valid() && pipe == PipeRun(PipeRun(old(pipe), taken), rest)
      ensures cancelled <==> Cancel in script
      ensures !cancelled ==> taken == script && rest == []
      ensures cancelled ==> EndsWithCancel(taken) && taken <= script
      ensures cancelled ==> pipe.phase == Stopped && ch == [] && Flatten(pipe.handed) == pipe.accepted
      ensures met <= |arrivals| && Produced(rest) == Flatten(arrivals[..met])
    {
      var dummy := UsageRecord("", "", "", "", 0, 0, 0, 0.0, false, 0);
      var buf := new UsageRecord[BATCH_SIZE](_ => dummy);
      var n, i := Select(buf, script);
      taken, rest, met := script[..i], [], 0;
      cancelled := i < |script|;
      if cancelled {
        RunNext(old(pipe), script, i);
        rest, met := Cancelled(buf, n, arrivals);
        taken := script[..i + 1];
        assert taken[..i] == script[..i] && script[i] in script;
      }
    }

    /** The select loop, with nothing in the buffer, up to the first cancellation in the script. */
    method Select(buf: array<UsageRecord>, script: seq<Event>) returns (n: nat, i: nat)
      requires Valid() && pipe.phase == Running && pipe.buf == [] && buf.Length == BATCH_SIZE && buf !in store
      modifies this, buf
      ensures Valid() && pipe.phase == Running && n < BATCH_SIZE && buf[..n] == pipe.buf && buf !in store
      ensures i <= |script| && Cancel !in script[..i] && (i < |script| ==> script[i] == Cancel)
      ensures pipe == PipeRun(old(pipe), script[..i])
      ensures forall a :: a in store ==> a in old(store) || fresh(a)
    {
      n, i := 0, 0;
      while i < |script| && script[i] != Cancel
        invariant i <= |script| && Cancel !in script[..i]
        invariant Valid() && pipe.phase == Running && n < BATCH_SIZE && buf[..n] == pipe.buf && buf !in store
        invariant forall a :: a in store ==> a in old(store) || fresh(a)
        invariant pipe == PipeRun(old(pipe), script[..i])
      {
        RunNext(old(pipe), script, i);
        n := Turn(buf, n, script[i]);
        i := i + 1;
      }
    }

    method Cancelled(buf: array<UsageRecord>, n: nat, arrivals: seq<seq<UsageRecord>>)
      returns (ghost events: seq<Event>, ghost met: nat)
      requires Valid() && pipe.phase == Running && buf.Length == BATCH_SIZE
      requires n < BATCH_SIZE && buf[..n] == pipe.buf && buf !in store
      modifies this, buf
      ensures Valid() && met <= |arrivals|
      ensures Lead(PipeStep(old(pipe), Cancel), events, pipe, Flatten(arrivals[..met]))
      ensures pipe.phase == Stopped && ch == [] && Flatten(pipe.handed) == pipe.accepted
    {
      StepConserves(pipe, Cancel);
      pipe := PipeStep(pipe, Cancel);
      events, met := Drain(buf, n, arrivals);
    }

    /** Records that arrive while the channel is drained. */
    method Arrive(rs: seq<UsageRecord>) returns (ghost events: seq<Event>)
      requires Valid()
      modifies this`ch, this`pipe
      ensures Valid() && Lead(old(pipe), events, pipe, rs)
      ensures pipe.phase == old(pipe.phase) && pipe.buf == old(pipe.buf)
    {
      events := [];
      for j := 0 to |rs|
        invariant Valid() && Lead(old(pipe), events, pipe, rs[..j])
        invariant pipe.phase == old(pipe.phase) && pipe.buf == old(pipe.buf)
      {
        LeadOn(old(pipe), events, pipe, rs[..j], Produce(rs[j]));
        assert rs[..j + 1] == rs[..j] + [rs[j]];
        Record(rs[j]);
        events := events + [Produce(rs[j])];
      }
      assert rs[..|rs|] == rs;
    }

    /** Empties the channel. Once no more arrive it ends, with the channel and the buffer empty; what was offered
        meanwhile is the first `met` arrivals. */
    method Drain(buf: array<UsageRecord>, len: nat, arrivals: seq<seq<UsageRecord>>)
      returns (ghost events: seq<Event>, ghost met: nat)
      requires Valid() && pipe.phase == Draining && buf.Length == BATCH_SIZE
      requires len < BATCH_SIZE && buf[..len] == pipe.buf && buf !in store
      modifies this, buf
      ensures Valid() && met <= |arrivals| && Lead(old(pipe), events, pipe, Flatten(arrivals[..met]))
      ensures pipe.phase == Stopped && ch == [] && Flatten(pipe.handed) == pipe.accepted
    {
      var n: nat, i: nat := len, 0;
      events := [];
      while true
        invariant Valid() && pipe.phase == Draining && n < BATCH_SIZE && buf[..n] == pipe.buf
        invariant buf !in store && i <= |arrivals|
        invariant forall a :: a in store ==> a in old(store) || fresh(a)
        invariant Lead(old(pipe), events, pipe, Flatten(arrivals[..i]))
        decreases |arrivals| - i, |ch|
      {
        if i < |arrivals| {
          ghost var before := pipe;
          ghost var more := Arrive(arrivals[i]);
          LeadFurther(old(pipe), events, before, Flatten(arrivals[..i]), more, pipe, arrivals[i]);
          FlattenNext(arrivals, i);
          i, events := i + 1, events + more;
        }
        if ch == [] {
          break;
        }
        LeadOn(old(pipe), events, pipe, Flatten(arrivals[..i]), Receive);
        n := Take(buf, n);
        events := events + [Receive];
      }
      LeadOn(old(pipe), events, pipe, Flatten(arrivals[..i]), Finish);
      FlushSome(buf, n, Finish);
      events, met := events + [Finish], i;
      AllHanded(pipe);
    }
  }
}
