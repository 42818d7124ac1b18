/**
  The streaming handler of internal/server/proxy.go: `handleChatCompletionStream`, `processStreamChunk`
  and the call of `finishStream`.

  What the handler's selects see is a script: a chunk, the channel closed, a keep-alive tick, or the
  client gone. The keep-alive ticker does not exist before the first chunk, so a tick in the script
  before it is never seen. `Told` says what the client is sent and `Settled` what is settled, by
  looking at the script alone; the handler is proved to do just that.
 */
module StreamHandlers {
  import opened Basics
  import opened Sse

  datatype Input = Chunk(c: StreamChunk<string>) | Closed | Tick | Gone

  /** A call of finishStream. */
  datatype Settlement = Settlement(usage: Option<Usage>, status: int)

  function Payload(c: StreamChunk<string>): string {
    if c.data.Some? then c.data.value else ""
  }

  /** The input ends the stream. */
  predicate Ends(i: Input) {
    i.Closed? || i.Gone? || (i.Chunk? && (i.c.err || i.c.done))
  }

  /** The inputs up to and including the first that ends the stream. */
  function Seen(script: seq<Input>): (s: seq<Input>)
  {
    if script == [] then [] else if Ends(script[0]) then [script[0]] else [script[0]] + Seen(script[1..])
  }

  /** One of the first `n` inputs is a chunk. */
  predicate HasChunk(inputs: seq<Input>, n: nat)
    requires n <= |inputs|
  {
    n > 0 && (inputs[n - 1].Chunk? || HasChunk(inputs, n - 1))
  }

  /** What an input sends to the client; `started` says that a chunk came before. */
  function Send(i: Input, started: bool): (frames: seq<Frame>)
  {
    match i
    case Closed => [DoneFrame]
    case Gone => []
    case Tick => if started then [KeepAlive] else []
    case Chunk(c) =>
      if c.err then [ErrorFrame(UpstreamFailed), DoneFrame]
      else if c.done then [DoneFrame] else [DataFrame(Payload(c))]
  }

  function SentBy(inputs: seq<Input>, n: nat): (frames: seq<Frame>)
    requires n <= |inputs|
  {
    if n == 0 then [] else SentBy(inputs, n - 1) + Send(inputs[n - 1], HasChunk(inputs, n - 1))
  }

  /** What the client is sent. */
  function Told(script: seq<Input>): seq<Frame> {
    SentBy(Seen(script), |Seen(script)|)
  }

  /** The usage of the last of the first `n` chunks that carries one and is not an error. */
  function LastUsage(inputs: seq<Input>, n: nat): (u: Option<Usage>)
    requires n <= |inputs|
  {
    if n == 0 then None
    else if inputs[n - 1].Chunk? && !inputs[n - 1].c.err && inputs[n - 1].c.usage.Some? then inputs[n - 1].c.usage
    else LastUsage(inputs, n - 1)
  }

  /** What is settled: once, when the stream ends and the client is still there. */
  function Settled(script: seq<Input>): seq<Settlement> {
    SettledBy(Seen(script))
  }

  function SettledBy(seen: seq<Input>): seq<Settlement> {
    if seen == [] || !Ends(seen[|seen| - 1]) || seen[|seen| - 1].Gone? then []
    else
      var last := seen[|seen| - 1];
      [Settlement(LastUsage(seen, |seen|), if last.Chunk? && last.c.err then 502 else 200)]
  }

  // ------------------------------------------------------------ the handler

  /** One chunk, or the closed channel. Returns the usage so far and whether the stream goes on. */
  method ProcessStreamChunk(w: ResponseWriter, input: Input, usage: Option<Usage>)
    returns (usage': Option<Usage>, goesOn: bool, settled: seq<Settlement>)
    requires w.Valid() && (input.Chunk? || input.Closed?)
    modifies w
    ensures w.Valid() && w.frames == old(w.frames) + Send(input, true)
    ensures goesOn <==> !Ends(input)
    ensures usage' == if input.Chunk? && !input.c.err && input.c.usage.Some? then input.c.usage else usage
    ensures settled == if goesOn then [] else [Settlement(usage', if input.Chunk? && input.c.err then 502 else 200)]
  {
    usage' := usage;
    if input.Closed? {
      w.WriteDone();
      return usage, false, [Settlement(usage, 200)];
    }
    var chunk := input.c;
    if chunk.err {
      w.WriteError(UpstreamFailed);
      w.WriteDone();
      return usage, false, [Settlement(usage, 502)];
    }
    if chunk.usage.Some? {
      usage' := chunk.usage;
    }
    if chunk.done {
      w.WriteDone();
      return usage', false, [Settlement(usage', 200)];
    }
    w.WriteData(Payload(chunk));
    return usage', true, [];
  }

  /** One turn of the handler's loop. */
  method Turn(w: ResponseWriter, input: Input, started: bool, usage: Option<Usage>)
    returns (usage': Option<Usage>, goesOn: bool, settled: seq<Settlement>)
    requires w.Valid()
    modifies w
    ensures w.Valid() && w.frames == old(w.frames) + Send(input, started)
    ensures goesOn <==> !Ends(input)
    ensures usage' == if input.Chunk? && !input.c.err && input.c.usage.Some? then input.c.usage else usage
    ensures settled == if goesOn || input.Gone? then [] else
      [Settlement(usage', if input.Chunk? && input.c.err then 502 else 200)]
  {
    match input {
      case Gone => return usage, false, [];
      case Tick =>
        if started {
          w.WriteKeepAlive();
        }
        return usage, true, [];
      case _ =>
        usage', goesOn, settled := ProcessStreamChunk(w, input, usage);
    }
  }

  /** The handler's loop; `seen` is what it sees of the script. */
  method Serve(w: ResponseWriter, script: seq<Input>, ghost seen: seq<Input>) returns (settled: seq<Settlement>)
    requires w.Valid() && Sees(script, seen)
    modifies w
    ensures w.Valid() && w.frames == old(w.frames) + SentBy(seen, |seen|)
    ensures settled == SettledBy(seen)
  {
    var usage: Option<Usage> := None;
    var keepAlive := false;
    for n := 0 to |script|
      invariant n <= |seen| && (n < |script| ==> n < |seen|)
      invariant n > 0 ==> !Ends(seen[n - 1])
      invariant keepAlive == HasChunk(seen, n) && usage == LastUsage(seen, n)
      invariant w.Valid() && w.frames == old(w.frames) + SentBy(seen, n)
    {
      assert seen[n] == script[n];
      Assoc(old(w.frames), SentBy(seen, n), Send(seen[n], keepAlive));
      var goesOn;
      usage, goesOn, settled := Turn(w, script[n], keepAlive, usage);
      if !goesOn {
        EndsHere(script, seen, n);
        return;
      }
      GoesOn(script, seen, n);
      keepAlive := keepAlive || script[n].Chunk?;
    }
    return [];
  }

  method HandleStream(w: ResponseWriter, script: seq<Input>) returns (settled: seq<Settlement>)
    requires w.Valid()
    modifies w
    ensures w.Valid() && w.frames == old(w.frames) + Told(script)
    ensures settled == Settled(script)
  {
    SeenEnds(script);
    settled := Serve(w, script, Seen(script));
  }

  /** At the first input that ends the stream, all that is seen has been seen. */
  lemma EndsHere(script: seq<Input>, seen: seq<Input>, n: nat)
    requires Sees(script, seen) && n < |seen| && Ends(script[n])
    ensures |seen| == n + 1
    ensures SettledBy(seen) == if script[n].Gone? then [] else
      [Settlement(LastUsage(seen, n + 1), if script[n].Chunk? && script[n].c.err then 502 else 200)]
  {
  }

  lemma GoesOn(script: seq<Input>, seen: seq<Input>, n: nat)
    requires Sees(script, seen) && n < |seen| && !Ends(script[n])
    ensures n + 1 < |script| ==> n + 1 < |seen|
  {
  }

  ghost predicate Sees(script: seq<Input>, seen: seq<Input>) {
    && seen <= script
    && (forall i :: 0 <= i < |seen| - 1 ==> !Ends(script[i]))
    && (|seen| < |script| ==> seen != [] && Ends(script[|seen| - 1]))
  }

  /** What was seen is the start of the script, and ends at the first input that ends the stream, if there is one. */
  lemma {:induction false} SeenEnds(script: seq<Input>)
    ensures Sees(script, Seen(script))
  {
    if script != [] && !Ends(script[0]) {
      SeenEnds(script[1..]);
    }
  }

  // ------------------------------------------------------ what a client sees

  /** Nothing but data and keep-alives. */
  predicate Flowing(frames: seq<Frame>) {
    forall i :: 0 <= i < |frames| ==> frames[i].DataFrame? || frames[i].KeepAlive?
  }

  /** The payloads of the first `n` inputs that are chunks, in order. */
  function Payloads(inputs: seq<Input>, n: nat): (ps: seq<Frame>)
    requires n <= |inputs|
  {
    if n == 0 then []
    else Payloads(inputs, n - 1) +
         match inputs[n - 1] {
           case Chunk(c) => [DataFrame(if c.data.Some? then c.data.value else "")]
           case _ => []
         }
  }

  function OnlyData(frames: seq<Frame>): (ds: seq<Frame>)
  {
    if frames == [] then []
    else OnlyData(frames[..|frames| - 1]) + if frames[|frames| - 1].DataFrame? then [frames[|frames| - 1]] else []
  }

  lemma OnlyDataAppend(frames: seq<Frame>, f: Frame)
    ensures OnlyData(frames + [f]) == OnlyData(frames) + if f.DataFrame? then [f] else []
  {
    assert (frames + [f])[..|frames|] == frames;
  }

  /** One input more that does not end the stream. */
  lemma FlowsOn(sent: seq<Frame>, i: Input, started: bool)
    requires !Ends(i) && Flowing(sent) && (started <==> sent != []) && (sent != [] ==> sent[0].DataFrame?)
    ensures Flowing(sent + Send(i, started))
    ensures started || i.Chunk? <==> sent + Send(i, started) != []
    ensures sent + Send(i, started) != [] ==> (sent + Send(i, started))[0].DataFrame?
  {
  }

  lemma {:induction false} FlowsBeforeEnd(inputs: seq<Input>, n: nat)
    requires n <= |inputs| && forall i :: 0 <= i < n ==> !Ends(inputs[i])
    ensures Flowing(SentBy(inputs, n))
    ensures HasChunk(inputs, n) <==> SentBy(inputs, n) != []
    ensures SentBy(inputs, n) != [] ==> SentBy(inputs, n)[0].DataFrame?
  {
    if n > 0 {
      FlowsBeforeEnd(inputs, n - 1);
      FlowsOn(SentBy(inputs, n - 1), inputs[n - 1], HasChunk(inputs, n - 1));
    }
  }

  lemma {:induction false} DataBeforeEnd(inputs: seq<Input>, n: nat)
    requires n <= |inputs| && forall i :: 0 <= i < n ==> !Ends(inputs[i])
    ensures OnlyData(SentBy(inputs, n)) == Payloads(inputs, n)
  {
    if n > 0 {
      DataBeforeEnd(inputs, n - 1);
      var before, more := SentBy(inputs, n - 1), Send(inputs[n - 1], HasChunk(inputs, n - 1));
      if more == [] {
        assert before + more == before;
      } else {
        OnlyDataAppend(before, more[0]);
      }
    }
  }

  // --------------------------------------------------------- keep-alives

  ghost predicate ChunkBefore(inputs: seq<Input>, n: nat)
    requires n <= |inputs|
  {
    exists j :: 0 <= j < n && inputs[j].Chunk?
  }

  lemma {:induction false} HasChunkMeans(inputs: seq<Input>, n: nat)
    requires n <= |inputs|
    ensures HasChunk(inputs, n) <==> ChunkBefore(inputs, n)
  {
    if n > 0 {
      HasChunkMeans(inputs, n - 1);
    }
  }

  /** How many of the first `n` inputs are ticks that come after a chunk. */
  ghost function TicksAfterChunk(inputs: seq<Input>, n: nat): (k: nat)
    requires n <= |inputs|
  {
    if n == 0 then 0
    else TicksAfterChunk(inputs, n - 1) + if inputs[n - 1].Tick? && ChunkBefore(inputs, n - 1) then 1 else 0
  }

  function KeepAlives(frames: seq<Frame>): (k: nat)
  {
    if frames == [] then 0
    else KeepAlives(frames[..|frames| - 1]) + if frames[|frames| - 1].KeepAlive? then 1 else 0
  }

  lemma KeepAlivesAppend(frames: seq<Frame>, f: Frame)
    ensures KeepAlives(frames + [f]) == KeepAlives(frames) + if f.KeepAlive? then 1 else 0
  {
    assert (frames + [f])[..|frames|] == frames;
  }

  lemma {:induction false} KeepAlivesBeforeEnd(inputs: seq<Input>, n: nat)
    requires n <= |inputs| && forall i :: 0 <= i < n ==> !Ends(inputs[i])
    ensures KeepAlives(SentBy(inputs, n)) == TicksAfterChunk(inputs, n)
  {
    if n > 0 {
      KeepAlivesBeforeEnd(inputs, n - 1);
      HasChunkMeans(inputs, n - 1);
      var before, more := SentBy(inputs, n - 1), Send(inputs[n - 1], HasChunk(inputs, n - 1));
      if more == [] {
        assert before + more == before;
      } else {
        KeepAlivesAppend(before, more[0]);
      }
    }
  }

  // ------------------------------------------------------------ the usage

  /** Input `k` is a chunk that is not an error and carries a usage. */
  ghost predicate Carries(inputs: seq<Input>, k: int)
    requires 0 <= k < |inputs|
  {
    inputs[k].Chunk? && !inputs[k].c.err && inputs[k].c.usage.Some?
  }

  /** The usage of the last such chunk among the first `n` inputs; none if there is none. */
  ghost predicate IsLastUsage(inputs: seq<Input>, n: nat, u: Option<Usage>)
    requires n <= |inputs|
  {
    if u.None? then forall k :: 0 <= k < n ==> !Carries(inputs, k)
    else exists k :: 0 <= k < n && LastToCarry(inputs, n, k) && inputs[k].c.usage == u
  }

  ghost predicate LastToCarry(inputs: seq<Input>, n: nat, k: int)
    requires 0 <= k < n <= |inputs|
  {
    Carries(inputs, k) && forall j :: k < j < n ==> !Carries(inputs, j)
  }

  lemma {:induction false} LastUsageMeans(inputs: seq<Input>, n: nat)
    requires n <= |inputs|
    ensures IsLastUsage(inputs, n, LastUsage(inputs, n))
  {
    if n > 0 {
      LastUsageMeans(inputs, n - 1);
      var u := LastUsage(inputs, n);
      if Carries(inputs, n - 1) {
        assert LastToCarry(inputs, n, n - 1);
      } else if u.Some? {
        var k :| 0 <= k < n - 1 && LastToCarry(inputs, n - 1, k) && inputs[k].c.usage == u;
        assert LastToCarry(inputs, n, k);
      }
    }
  }

  // -------------------------------------------------------------- the end

  /** What is seen is the script up to the first input that is the closed channel, the client gone, or a chunk that is
      an error or the last. */
  lemma SeenExactly(script: seq<Input>)
    ensures Seen(script) <= script
    ensures forall i :: 0 <= i < |Seen(script)| - 1 ==>
      script[i].Tick? || (script[i].Chunk? && !script[i].c.err && !script[i].c.done)
    ensures |Seen(script)| < |script| ==> Seen(script) != []
    ensures |Seen(script)| < |script| ==>
      var last := script[|Seen(script)| - 1];
      last.Closed? || last.Gone? || (last.Chunk? && (last.c.err || last.c.done))
  {
    SeenEnds(script);
  }

  /** What the input sends that comes after the first `n`, if there is one. */
  function TailAfter(seen: seq<Input>, n: nat): seq<Frame>
    requires n <= |seen|
  {
    if n < |seen| then Send(seen[n], HasChunk(seen, n)) else []
  }

  ghost predicate EndsInError(seen: seq<Input>) {
    seen != [] && seen[|seen| - 1].Chunk? && seen[|seen| - 1].c.err
  }

  ghost predicate EndsWell(seen: seq<Input>) {
    seen != [] && (seen[|seen| - 1].Closed? ||
                   (seen[|seen| - 1].Chunk? && !seen[|seen| - 1].c.err && seen[|seen| - 1].c.done))
  }

  /** An error chunk ends the output with an error frame and [DONE], and is settled as 502; the last chunk or the closed
      channel ends it with [DONE] and is settled as 200; otherwise nothing ends it and nothing is settled. */
  lemma TailSettles(script: seq<Input>)
    ensures var seen := Seen(script);
      var tail, settled := TailAfter(seen, Lasting(script)), Settled(script);
      && tail == (if EndsInError(seen) then [ErrorFrame(UpstreamFailed), DoneFrame]
                  else if EndsWell(seen) then [DoneFrame] else [])
      && (if tail == [] then settled == []
          else |settled| == 1 && settled[0].status == (if EndsInError(seen) then 502 else 200) &&
               IsLastUsage(seen, |seen|, settled[0].usage))
  {
    SeenPrefixRuns(script, Lasting(script));
    LastUsageMeans(Seen(script), |Seen(script)|);
  }

  /** Over every script: the data frames are the chunks' payloads in order, with a keep-alive for every tick seen after
      the first; an error chunk ends them with one error frame and [DONE], the last chunk or the closed channel
      with [DONE], and then one settlement is made; otherwise there is no [DONE], no error and no settlement. */
  lemma EndsOnce(script: seq<Input>) returns (flow: seq<Frame>, tail: seq<Frame>)
    ensures Told(script) == flow + tail
    ensures Flowing(flow) && OnlyData(flow) == Payloads(Seen(script), Lasting(script))
    ensures KeepAlives(flow) == TicksAfterChunk(Seen(script), Lasting(script))
    ensures flow != [] ==> flow[0].DataFrame?
    ensures tail == [ErrorFrame(UpstreamFailed), DoneFrame] <==> EndsInError(Seen(script))
    ensures tail == [DoneFrame] <==> EndsWell(Seen(script))
    ensures tail == [] <==> !EndsInError(Seen(script)) && !EndsWell(Seen(script))
    ensures tail == [] ==> Settled(script) == []
    ensures tail != [] ==>
      && |Settled(script)| == 1 && Settled(script)[0].status == (if EndsInError(Seen(script)) then 502 else 200)
      && IsLastUsage(Seen(script), |Seen(script)|, Settled(script)[0].usage)
  {
    var seen, n := Seen(script), Lasting(script);
    SeenPrefixRuns(script, n);
    FlowsBeforeEnd(seen, n);
    DataBeforeEnd(seen, n);
    KeepAlivesBeforeEnd(seen, n);
    flow, tail := SentBy(seen, n), TailAfter(seen, n);
    TailSettles(script);
  }

  lemma {:induction false} SentGrows(inputs: seq<Input>, i: nat, n: nat)
    requires i <= n <= |inputs|
    ensures SentBy(inputs, i) <= SentBy(inputs, n)
  {
    if i < n {
      SentGrows(inputs, i, n - 1);
    }
  }

  /** And it goes out as it comes in: after any number of inputs the client has been sent their payloads and their
      keep-alives, and what it is sent later comes after that. */
  lemma SentSoFar(script: seq<Input>, i: nat)
    requires i <= Lasting(script)
    ensures SentBy(Seen(script), i) <= Told(script)
    ensures OnlyData(SentBy(Seen(script), i)) == Payloads(Seen(script), i)
    ensures KeepAlives(SentBy(Seen(script), i)) == TicksAfterChunk(Seen(script), i)
  {
    var seen := Seen(script);
    SeenPrefixRuns(script, Lasting(script));
    SentGrows(seen, i, |seen|);
    DataBeforeEnd(seen, i);
    KeepAlivesBeforeEnd(seen, i);
  }

  /** The stream came to an end with the client there. */
  predicate Completed(script: seq<Input>) {
    var seen := Seen(script);
    seen != [] && Ends(seen[|seen| - 1]) && !seen[|seen| - 1].Gone?
  }

  /** How many inputs were seen before the one that ended the stream. */
  function Lasting(script: seq<Input>): (n: nat)
    ensures n <= |Seen(script)|
  {
    var seen := Seen(script);
    if seen != [] && Ends(seen[|seen| - 1]) then |seen| - 1 else |seen|
  }

  lemma {:induction false} SeenPrefixRuns(script: seq<Input>, n: nat)
    requires n <= |Seen(script)| && (n == |Seen(script)| ==> n == 0 || !Ends(Seen(script)[n - 1]))
    ensures forall i :: 0 <= i < n ==> !Ends(Seen(script)[i])
  {
    SeenEnds(script);
  }

  /** A client that reads the handler's bytes with the gateway's own reader gets, once the stream completed
      and if the payloads are clean, what each frame yields, in order, and then Done. */
  lemma ReadBackByGateway(script: seq<Input>, usageOf: UsageOf)
    requires Completed(script) && AllClean(Told(script))
    ensures Told(script) != []
    ensures ReadBody(Print(Told(script)), usageOf) ==
            AllYields(Told(script)[..|Told(script)| - 1], usageOf) + [DoneChunk()]
  {
    var flow, tail := EndsOnce(script);
    UpstreamErrorIsClean();
    var all := flow + tail[..|tail| - 1];
    assert Told(script) == all + [DoneFrame];
    assert Told(script)[..|Told(script)| - 1] == all;
    assert forall i :: 0 <= i < |all| ==> all[i] == Told(script)[i];
    ReadsBack(all, usageOf);
  }
}
