/**
  The Anthropic stream translation of internal/provider/anthropic/stream.go: pairing `event:` and
  `data:` lines, and the event machine that emits OpenAI-format chunks.

  Reading fields out of a JSON payload is a parameter (`Json`, total as gjson is), and a chunk's JSON is
  kept as the values it is built from (`Body`). The line parser and the names of events, deltas and stop
  reasons are a parameter too (`Lexicon`); `ANTHROPIC` holds the source's.
 */
module AnthropicStreams {
  import opened Basics
  import opened Sse

  // ---------------------------------------------------------- line pairing

  datatype Pair = Pair(event: string, data: string)

  type Parser = string -> Parsed

  /** What reaches handleEvent: a data line with the event named last, unless a data line came since. */
  function Pairs(parse: Parser, lines: seq<string>, current: string): (ps: seq<Pair>)
  {
    if lines == [] then []
    else
      var parsed := parse(lines[0]);
      if parsed.Ignored? then Pairs(parse, lines[1..], current)
      else if parsed.event != "" then Pairs(parse, lines[1..], parsed.event)
      else if parsed.data == "" then Pairs(parse, lines[1..], current)
      else [Pair(current, parsed.data)] + Pairs(parse, lines[1..], "")
  }

  /** The lines that carry a field. */
  function Signal(parse: Parser, lines: seq<string>): (r: seq<string>)
  {
    if lines == [] then [] else (if parse(lines[0]).Ignored? then [] else [lines[0]]) + Signal(parse, lines[1..])
  }

  function PrintPairs(ps: seq<Pair>): (lines: seq<string>)
  {
    if ps == [] then [] else ["event: " + ps[0].event, "data: " + ps[0].data] + PrintPairs(ps[1..])
  }

  /** Comments, blank lines and unknown fields are invisible, wherever they stand. */
  lemma {:induction false} NoiseIsInvisible(parse: Parser, lines: seq<string>, current: string)
    ensures Pairs(parse, lines, current) == Pairs(parse, Signal(parse, lines), current)
    decreases |lines|
  {
    if lines != [] {
      var signal, parsed := Signal(parse, lines[1..]), parse(lines[0]);
      if parsed.Ignored? {
        assert [] + signal == signal;
        NoiseIsInvisible(parse, lines[1..], current);
      } else {
        assert ([lines[0]] + signal)[1..] == signal;
        var next := if parsed.event != "" then parsed.event else if parsed.data == "" then current else "";
        NoiseIsInvisible(parse, lines[1..], next);
      }
    }
  }

  ghost predicate Printable(ps: seq<Pair>) {
    forall i :: 0 <= i < |ps| ==> ps[i].event != "" && ps[i].data != ""
  }

  lemma {:induction false} PrintedPairs(ps: seq<Pair>)
    requires Printable(ps)
    ensures Pairs(ParseLine, PrintPairs(ps), "") == ps
  {
    if ps != [] {
      var e, d, rest := "event: " + ps[0].event, "data: " + ps[0].data, PrintPairs(ps[1..]);
      PrintedPairs(ps[1..]);
      ParsePrinted(ps[0].event);
      ParsePrinted(ps[0].data);
      assert ([e, d] + rest)[1..] == [d] + rest && ([d] + rest)[1..] == rest;
    }
  }

  /** Lines that survive the wire as they are. */
  ghost predicate Plain(lines: seq<string>) {
    forall i :: 0 <= i < |lines| ==> OneLine(lines[i]) && DropCR(lines[i]) == lines[i] && |lines[i]| < MAX_LINE
  }

  function Join(lines: seq<string>): (body: string)
  {
    if lines == [] then "" else lines[0] + "\n" + Join(lines[1..])
  }

  lemma {:induction false} JoinedLines(lines: seq<string>)
    requires Plain(lines)
    ensures Lines(Join(lines)) == Scan(lines, false)
  {
    if lines != [] {
      var first, rest := lines[0], lines[1..];
      JoinedLines(rest);
      assert OneLine(first) && DropCR(first) == first && |first| < MAX_LINE;
      LineThenRest(first, Join(rest));
      assert lines == [first] + rest;
    }
  }

  /** Event frames printed line by line, with comments, blanks and unknown fields between any two lines,
      reach handleEvent as the same pairs in the same order. */
  lemma PairsSurvive(lines: seq<string>, ps: seq<Pair>)
    requires Plain(lines) && Printable(ps) && Signal(ParseLine, lines) == PrintPairs(ps)
    ensures Pairs(ParseLine, Lines(Join(lines)).lines, "") == ps && !Lines(Join(lines)).tooLong
  {
    JoinedLines(lines);
    NoiseIsInvisible(ParseLine, lines, "");
    PrintedPairs(ps);
  }

  // -------------------------------------------------------- event machine

  datatype Json = Json(
    messageID: string -> string, messageModel: string -> string, inputTokens: string -> int,
    deltaType: string -> string, text: string -> string, index: string -> int, partial: string -> string,
    outputTokens: string -> int, stopReason: string -> string)

  /** An OpenAI-format chunk by the values it is built from. */
  datatype Body =
    | Role(id: string, model: string)
    | Content(id: string, model: string, text: string)
    | ToolArguments(id: string, model: string, index: int, partial: string)
    | Finish(id: string, model: string, reason: string)
    | UsageBody(id: string, model: string, u: Usage)

  type Out = StreamChunk<Body>

  datatype State = State(id: string, model: string, inputTokens: int, outputTokens: int, stopReason: string)

  const FRESH := State("", "", 0, 0, "")

  function MapStopReason(reason: string): string {
    if reason == "end_turn" then "stop"
    else if reason == "max_tokens" then "length"
    else if reason == "tool_use" then "tool_calls"
    else if reason == "stop_sequence" then "stop"
    else reason
  }

  /** What an event is, by its name. */
  datatype Kind = MessageStart | BlockDelta | MessageDelta | MessageStop | OtherEvent

  function KindOf(event: string): Kind {
    if event == "message_start" then MessageStart
    else if event == "content_block_delta" then BlockDelta
    else if event == "message_delta" then MessageDelta
    else if event == "message_stop" then MessageStop
    else OtherEvent
  }

  /** An event by kind, with its payload. */
  datatype Event = Event(kind: Kind, data: string)

  datatype Delta = TextDelta | InputDelta | OtherDelta

  function DeltaOf(t: string): Delta {
    if t == "text_delta" then TextDelta else if t == "input_json_delta" then InputDelta else OtherDelta
  }

  /** How lines are parsed, and how the names of events, deltas and stop reasons are read. */
  datatype Lexicon = Lexicon(
    parse: Parser, kindOf: string -> Kind, deltaOf: string -> Delta, finishReason: string -> string)

  const ANTHROPIC := Lexicon(ParseLine, KindOf, DeltaOf, MapStopReason)

  /** The pairs of a stream as events. */
  function DecodeAll(x: Lexicon, ps: seq<Pair>): (es: seq<Event>)
    ensures |es| == |ps| && forall i :: 0 <= i < |ps| ==> es[i] == Event(x.kindOf(ps[i].event), ps[i].data)
  {
    seq(|ps|, i requires 0 <= i < |ps| => Event(x.kindOf(ps[i].event), ps[i].data))
  }

  function Total(s: State): Usage {
    Usage(s.inputTokens, s.outputTokens, s.inputTokens + s.outputTokens)
  }

  function Next(j: Json, s: State, e: Event): State {
    match e.kind
    case MessageStart =>
      s.(id := j.messageID(e.data), model := j.messageModel(e.data), inputTokens := j.inputTokens(e.data))
    case MessageDelta => s.(outputTokens := j.outputTokens(e.data), stopReason := j.stopReason(e.data))
    case _ => s
  }

  /** What an event emits; `s` is the state after it. */
  function Emits(x: Lexicon, j: Json, s: State, e: Event): seq<Out> {
    match e.kind
    case MessageStart => [DataChunk(Role(s.id, s.model), None)]
    case BlockDelta =>
      (match x.deltaOf(j.deltaType(e.data))
       case TextDelta => [DataChunk(Content(s.id, s.model, j.text(e.data)), None)]
       case InputDelta => [DataChunk(ToolArguments(s.id, s.model, j.index(e.data), j.partial(e.data)), None)]
       case OtherDelta => [])
    case MessageStop =>
      [DataChunk(Finish(s.id, s.model, x.finishReason(s.stopReason)), None),
       DataChunk(UsageBody(s.id, s.model, Total(s)), Some(Total(s))), DoneChunk()]
    case _ => []
  }

  class StreamState {
    var id: string
    var model: string
    var inputTokens: int
    var outputTokens: int
    var stopReason: string

    ghost function Value(): State
      reads this
    {
      State(id, model, inputTokens, outputTokens, stopReason)
    }

    constructor ()
      ensures Value() == FRESH
    {
      id, model, inputTokens, outputTokens, stopReason := "", "", 0, 0, "";
    }

    method HandleEvent(x: Lexicon, j: Json, event: string, data: string) returns (chunks: seq<Out>)
      modifies this
      ensures Value() == Next(j, old(Value()), Event(x.kindOf(event), data))
      ensures chunks == Emits(x, j, Value(), Event(x.kindOf(event), data))
    {
      match x.kindOf(event) {
        case MessageStart =>
          id := j.messageID(data);
          model := j.messageModel(data);
          inputTokens := j.inputTokens(data);
          return [DataChunk(Role(id, model), None)];
        case BlockDelta =>
          match x.deltaOf(j.deltaType(data)) {
            case TextDelta => return [DataChunk(Content(id, model, j.text(data)), None)];
            case InputDelta => return [DataChunk(ToolArguments(id, model, j.index(data), j.partial(data)), None)];
            case OtherDelta => return [];
          }
        case MessageDelta =>
          outputTokens := j.outputTokens(data);
          stopReason := j.stopReason(data);
          return [];
        case MessageStop =>
          var usage := Usage(inputTokens, outputTokens, inputTokens + outputTokens);
          return [DataChunk(Finish(id, model, x.finishReason(stopReason)), None),
                  DataChunk(UsageBody(id, model, usage), Some(usage)), DoneChunk()];
        case OtherEvent => return [];
      }
    }
  }

  // ------------------------------------------------------------ whole runs

  /** A run of the machine: `states[n]` is its state and `outs[n]` all it emitted before event `n`. */
  datatype Course = Course(states: seq<State>, outs: seq<seq<Out>>)

  ghost predicate Follows(x: Lexicon, j: Json, es: seq<Event>, c: Course, i: nat)
    requires i < |es| && i + 1 < |c.states| && i + 1 < |c.outs|
  {
    c.states[i + 1] == Next(j, c.states[i], es[i]) && c.outs[i + 1] == c.outs[i] + Emits(x, j, c.states[i + 1], es[i])
  }

  ghost predicate IsCourse(x: Lexicon, j: Json, s: State, es: seq<Event>, c: Course) {
    && |c.states| == |es| + 1 && |c.outs| == |es| + 1 && c.states[0] == s && c.outs[0] == []
    && forall i: nat :: i < |es| ==> Follows(x, j, es, c, i)
  }

  lemma CourseGrows(x: Lexicon, j: Json, s: State, es: seq<Event>, e: Event, c: Course)
    requires IsCourse(x, j, s, es, c)
    ensures var state := Next(j, c.states[|es|], e);
      IsCourse(x, j, s, es + [e], Course(c.states + [state], c.outs + [c.outs[|es|] + Emits(x, j, state, e)]))
  {
    var state, more := Next(j, c.states[|es|], e), es + [e];
    var c' := Course(c.states + [state], c.outs + [c.outs[|es|] + Emits(x, j, state, e)]);
    forall i: nat | i < |more|
      ensures Follows(x, j, more, c', i)
    {
      if i < |es| {
        assert Follows(x, j, es, c, i);
      }
    }
  }

  /** Every list of events has a run. */
  lemma {:induction false} CourseOf(x: Lexicon, j: Json, s: State, es: seq<Event>) returns (c: Course)
    ensures IsCourse(x, j, s, es, c)
  {
    if es == [] {
      c := Course([s], [[]]);
    } else {
      var before, e := es[..|es| - 1], es[|es| - 1];
      c := CourseOf(x, j, s, before);
      CourseGrows(x, j, s, before, e, c);
      var state := Next(j, c.states[|before|], e);
      c := Course(c.states + [state], c.outs + [c.outs[|before|] + Emits(x, j, state, e)]);
      assert es == before + [e];
    }
  }

  /** What was emitted stays emitted. */
  lemma {:induction false} OutsGrow(x: Lexicon, j: Json, s: State, es: seq<Event>, c: Course, n: nat, m: nat)
    requires IsCourse(x, j, s, es, c) && n <= m <= |es|
    ensures c.outs[n] <= c.outs[m]
  {
    if n < m {
      OutsGrow(x, j, s, es, c, n, m - 1);
      assert Follows(x, j, es, c, m - 1);
    }
  }

  // ------------------------------------------------------------ the reader

  /** What the channel gets of the chunks `all` and then `last`, from chunk `n` on: a cancellation noticed instead
      of sending a chunk puts an error in its place and ends the stream. */
  function Heard(all: seq<Out>, last: seq<Out>, cancelled: nat -> bool, n: nat): (ch: seq<Out>)
    requires n <= |all|
    decreases |all| - n
  {
    if n == |all| then all + last
    else if cancelled(n) then all[..n] + [ErrChunk()]
    else Heard(all, last, cancelled, n + 1)
  }

  /** All of it if nobody cancels, and else what came before the first cancellation, and an error. */
  lemma {:induction false} HeardUntilCancelled(all: seq<Out>, last: seq<Out>, cancelled: nat -> bool, n: nat, k: nat)
    requires n <= k <= |all| && forall i: nat :: n <= i < k ==> !cancelled(i)
    ensures k == |all| ==> Heard(all, last, cancelled, n) == all + last
    ensures k < |all| && cancelled(k) ==> Heard(all, last, cancelled, n) == all[..k] + [ErrChunk()]
    decreases k - n
  {
    if n < k {
      HeardUntilCancelled(all, last, cancelled, n + 1, k);
    }
  }

  /** Sends an event's chunks one by one, unless cancelled. */
  method SendAll(
      sent: seq<Out>, chunks: seq<Out>, cancelled: nat -> bool, ghost all: seq<Out>, ghost last: seq<Out>)
    returns (ch: seq<Out>, ok: bool)
    requires sent + chunks <= all
    ensures ok ==> ch == sent + chunks
    ensures ok ==> Heard(all, last, cancelled, |ch|) == Heard(all, last, cancelled, |sent|)
    ensures !ok ==> ch == Heard(all, last, cancelled, |sent|)
  {
    ch := sent;
    for i := 0 to |chunks|
      invariant ch == sent + chunks[..i] && ch <= all
      invariant Heard(all, last, cancelled, |ch|) == Heard(all, last, cancelled, |sent|)
    {
      if cancelled(|ch|) {
        return ch + [ErrChunk()], false;
      }
      ch := ch + [chunks[i]];
      assert all[|ch| - 1] == (sent + chunks)[|ch| - 1];
    }
    assert chunks[..|chunks|] == chunks;
    return ch, true;
  }

  /** The reader's loop over the scanner's lines: it runs the machine on the paired events and sends what it emits. */
  method ReadLines(x: Lexicon, j: Json, lines: seq<string>, cancelled: nat -> bool, ghost last: seq<Out>)
    returns (ch: seq<Out>, ok: bool, ghost c: Course)
    ensures IsCourse(x, j, FRESH, DecodeAll(x, Pairs(x.parse, lines, "")), c)
    ensures var all := c.outs[|c.outs| - 1];
      ch + (if ok then last else []) == Heard(all, last, cancelled, 0)
  {
    ghost var ps := Pairs(x.parse, lines, "");
    ghost var es := DecodeAll(x, ps);
    c := CourseOf(x, j, FRESH, es);
    ghost var all := c.outs[|es|];
    var state := new StreamState();
    var currentEvent := "";
    ch := [];
    ghost var n: nat := 0;
    assert lines[0..] == lines && ps[0..] == ps;
    for i := 0 to |lines|
      invariant fresh(state) && n <= |ps| && ps[n..] == Pairs(x.parse, lines[i..], currentEvent)
      invariant state.Value() == c.states[n] && ch == c.outs[n] && ch <= all
      invariant Heard(all, last, cancelled, |ch|) == Heard(all, last, cancelled, 0)
    {
      PairsNext(x.parse, lines, i, currentEvent);
      var parsed := x.parse(lines[i]);
      if parsed.Ignored? {
        continue;
      }
      if parsed.event != "" {
        currentEvent := parsed.event;
        continue;
      }
      if parsed.data == "" {
        continue;
      }
      FirstOf(ps, n, Pair(currentEvent, parsed.data), Pairs(x.parse, lines[i + 1..], ""));
      assert Follows(x, j, es, c, n);
      OutsGrow(x, j, FRESH, es, c, n + 1, |es|);
      var chunks := state.HandleEvent(x, j, currentEvent, parsed.data);
      ch, ok := SendAll(ch, chunks, cancelled, all, last);
      if !ok {
        assert ch + [] == ch;
        return;
      }
      n := n + 1;
      currentEvent := "";
    }
    ok := true;
  }

  lemma FirstOf<T>(s: seq<T>, n: nat, x: T, rest: seq<T>)
    requires n <= |s| && s[n..] == [x] + rest
    ensures n < |s| && s[n] == x && s[n + 1..] == rest
  {
    assert s[n] == s[n..][0] && s[n + 1..] == s[n..][1..];
  }

  /** The whole stream: what the machine emits and an error if a line did not fit, up to a cancellation. */
  method ReadStream(x: Lexicon, j: Json, body: string, cancelled: nat -> bool)
    returns (ch: seq<Out>, ghost c: Course)
    ensures IsCourse(x, j, FRESH, DecodeAll(x, Pairs(x.parse, Lines(body).lines, "")), c)
    ensures ch == Heard(c.outs[|c.outs| - 1], if Lines(body).tooLong then [ErrChunk()] else [], cancelled, 0)
  {
    var scan := Lines(body);
    var ok;
    ch, ok, c := ReadLines(x, j, scan.lines, cancelled, if scan.tooLong then [ErrChunk()] else []);
    if ok && scan.tooLong {
      ch := ch + [ErrChunk()];
    }
  }

  lemma PairsNext(parse: Parser, lines: seq<string>, i: nat, current: string)
    requires i < |lines|
    ensures var parsed, rest := parse(lines[i]), lines[i + 1..];
      Pairs(parse, lines[i..], current) ==
      if parsed.Ignored? then Pairs(parse, rest, current)
      else if parsed.event != "" then Pairs(parse, rest, parsed.event)
      else if parsed.data == "" then Pairs(parse, rest, current)
      else [Pair(current, parsed.data)] + Pairs(parse, rest, "")
  {
    assert lines[i..][1..] == lines[i + 1..];
  }

  // --------------------------------------------------------------- meaning

  /** The text that chunks carry. */
  function TextOf(chunks: seq<Out>): (t: string)
  {
    if chunks == [] then "" else TextOf(chunks[..|chunks| - 1]) + TextIn(chunks[|chunks| - 1])
  }

  function TextIn(c: Out): string {
    if c.data.Some? && c.data.value.Content? then c.data.value.text else ""
  }

  function TextSent(x: Lexicon, j: Json, e: Event): string {
    if e.kind == BlockDelta && x.deltaOf(j.deltaType(e.data)) == TextDelta then j.text(e.data) else ""
  }

  /** The text that the text deltas of the first `n` pairs carry. */
  function DeltaText(x: Lexicon, j: Json, es: seq<Event>, n: nat): (t: string)
    requires n <= |es|
  {
    if n == 0 then "" else DeltaText(x, j, es, n - 1) + TextSent(x, j, es[n - 1])
  }

  function Dones(chunks: seq<Out>): (n: nat)
  {
    if chunks == [] then 0 else Dones(chunks[..|chunks| - 1]) + if chunks[|chunks| - 1].done then 1 else 0
  }

  function Stops(es: seq<Event>, n: nat): (k: nat)
    requires n <= |es|
  {
    if n == 0 then 0 else Stops(es, n - 1) + if es[n - 1].kind == MessageStop then 1 else 0
  }

  lemma {:induction false} TextConcat(a: seq<Out>, b: seq<Out>)
    ensures TextOf(a + b) == TextOf(a) + TextOf(b)
  {
    if b == [] {
      assert a + b == a && TextOf(a) + "" == TextOf(a);
    } else {
      var before := b[..|b| - 1];
      TextConcat(a, before);
      assert (a + b)[..|a| + |b| - 1] == a + before;
      Assoc(TextOf(a), TextOf(before), TextIn(b[|b| - 1]));
    }
  }

  lemma {:induction false} DonesConcat(a: seq<Out>, b: seq<Out>)
    ensures Dones(a + b) == Dones(a) + Dones(b)
  {
    if b == [] {
      assert a + b == a;
    } else {
      DonesConcat(a, b[..|b| - 1]);
      assert (a + b)[..|a| + |b| - 1] == a + b[..|b| - 1];
    }
  }

  lemma MeaningConcat(a: seq<Out>, b: seq<Out>)
    ensures TextOf(a + b) == TextOf(a) + TextOf(b) && Dones(a + b) == Dones(a) + Dones(b)
  {
    TextConcat(a, b);
    DonesConcat(a, b);
  }

  lemma MeaningOfOne(c: Out)
    ensures TextOf([c]) == TextIn(c) && Dones([c]) == if c.done then 1 else 0
  {
    assert [c][..0] == [];
  }

  lemma MeaningOfThree(a: Out, b: Out, c: Out)
    ensures TextOf([a, b, c]) == TextIn(a) + TextIn(b) + TextIn(c)
    ensures Dones([a, b, c]) == Dones([a]) + Dones([b]) + Dones([c])
  {
    MeaningOfOne(a);
    MeaningOfOne(b);
    MeaningOfOne(c);
    assert [a, b] == [a] + [b] && [a, b, c] == [a, b] + [c];
    MeaningConcat([a], [b]);
    MeaningConcat([a, b], [c]);
  }

  lemma MeaningOfEvent(x: Lexicon, j: Json, s: State, e: Event)
    ensures TextOf(Emits(x, j, s, e)) == TextSent(x, j, e)
    ensures Dones(Emits(x, j, s, e)) == if e.kind == MessageStop then 1 else 0
  {
    var out := Emits(x, j, s, e);
    if e.kind == MessageStop {
      MeaningOfThree(out[0], out[1], out[2]);
      MeaningOfOne(out[0]);
      MeaningOfOne(out[1]);
      MeaningOfOne(out[2]);
      assert out == [out[0], out[1], out[2]];
    } else if out != [] {
      MeaningOfOne(out[0]);
      assert out == [out[0]];
    }
  }

  lemma MeaningAt(x: Lexicon, j: Json, s: State, es: seq<Event>, c: Course, n: nat)
    requires IsCourse(x, j, s, es, c) && n < |es|
    ensures TextOf(c.outs[n + 1]) == TextOf(c.outs[n]) + TextSent(x, j, es[n])
    ensures Dones(c.outs[n + 1]) == Dones(c.outs[n]) + if es[n].kind == MessageStop then 1 else 0
  {
    assert Follows(x, j, es, c, n);
    MeaningConcat(c.outs[n], Emits(x, j, c.states[n + 1], es[n]));
    MeaningOfEvent(x, j, c.states[n + 1], es[n]);
  }

  lemma {:induction false} TextPreserved(x: Lexicon, j: Json, s: State, es: seq<Event>, c: Course, n: nat)
    requires IsCourse(x, j, s, es, c) && n <= |es|
    ensures TextOf(c.outs[n]) == DeltaText(x, j, es, n)
  {
    if n > 0 {
      TextPreserved(x, j, s, es, c, n - 1);
      MeaningAt(x, j, s, es, c, n - 1);
    }
  }

  lemma {:induction false} StopsPreserved(x: Lexicon, j: Json, s: State, es: seq<Event>, c: Course, n: nat)
    requires IsCourse(x, j, s, es, c) && n <= |es|
    ensures Dones(c.outs[n]) == Stops(es, n)
  {
    if n > 0 {
      StopsPreserved(x, j, s, es, c, n - 1);
      MeaningAt(x, j, s, es, c, n - 1);
    }
  }

  /** In any run, from any state, the text emitted is the text of the text deltas, and there is one Done for every
      message_stop. */
  lemma MeaningPreserved(x: Lexicon, j: Json, s: State, es: seq<Event>, c: Course, n: nat)
    requires IsCourse(x, j, s, es, c) && n <= |es|
    ensures TextOf(c.outs[n]) == DeltaText(x, j, es, n) && Dones(c.outs[n]) == Stops(es, n)
  {
    TextPreserved(x, j, s, es, c, n);
    StopsPreserved(x, j, s, es, c, n);
  }

  /** From the wire: whatever comments and blanks lie between the printed lines of some event frames, the machine
      is run on just those events, and what it emits carries their text and one Done for every message_stop. */
  lemma WireMeaning(x: Lexicon, j: Json, lines: seq<string>, ps: seq<Pair>, c: Course)
    requires Plain(lines) && Printable(ps) && Signal(ParseLine, lines) == PrintPairs(ps)
    requires x.parse == ParseLine
    requires IsCourse(x, j, FRESH, DecodeAll(x, Pairs(x.parse, Lines(Join(lines)).lines, "")), c)
    ensures !Lines(Join(lines)).tooLong && IsCourse(x, j, FRESH, DecodeAll(x, ps), c)
    ensures TextOf(c.outs[|ps|]) == DeltaText(x, j, DecodeAll(x, ps), |ps|)
    ensures Dones(c.outs[|ps|]) == Stops(DecodeAll(x, ps), |ps|)
  {
    PairsSurvive(lines, ps);
    MeaningPreserved(x, j, FRESH, DecodeAll(x, ps), c, |ps|);
  }

  /** One message: it starts once, first; reports its output at least once, for the last time at `m`; and stops
      once, last. */
  ghost predicate OneMessage(es: seq<Event>, m: nat) {
    && 0 < m < |es| - 1
    && es[0].kind == MessageStart && es[m].kind == MessageDelta && es[|es| - 1].kind == MessageStop
    && forall i :: 0 < i < |es| - 1 && i != m ==>
         es[i].kind == BlockDelta || es[i].kind == OtherEvent || (es[i].kind == MessageDelta && i < m)
  }

  lemma {:induction false} StateWithinMessage(x: Lexicon, j: Json, es: seq<Event>, m: nat, c: Course, n: nat)
    requires OneMessage(es, m) && IsCourse(x, j, FRESH, es, c) && 0 < n <= |es|
    ensures var s := c.states[n];
      && s.id == j.messageID(es[0].data) && s.model == j.messageModel(es[0].data)
      && s.inputTokens == j.inputTokens(es[0].data)
      && (n > m ==> s.outputTokens == j.outputTokens(es[m].data) && s.stopReason == j.stopReason(es[m].data))
  {
    assert Follows(x, j, es, c, n - 1);
    if n > 1 {
      StateWithinMessage(x, j, es, m, c, n - 1);
      assert n - 1 <= m || n == |es| || es[n - 1].kind == BlockDelta || es[n - 1].kind == OtherEvent;
    }
  }

  /** What a content block delta of a message comes out as. */
  function BlockOut(x: Lexicon, j: Json, id: string, model: string, e: Event): seq<Out> {
    if e.kind != BlockDelta then []
    else
      match x.deltaOf(j.deltaType(e.data))
      case TextDelta => [DataChunk(Content(id, model, j.text(e.data)), None)]
      case InputDelta => [DataChunk(ToolArguments(id, model, j.index(e.data), j.partial(e.data)), None)]
      case OtherDelta => []
  }

  /** What the content block deltas before event `n` come out as, in order. */
  function BlocksOut(x: Lexicon, j: Json, id: string, model: string, es: seq<Event>, n: nat): (out: seq<Out>)
    requires n <= |es|
  {
    if n == 0 then [] else BlocksOut(x, j, id, model, es, n - 1) + BlockOut(x, j, id, model, es[n - 1])
  }

  /** What a message's usage comes out as: the input tokens it started with and the output tokens last reported. */
  function UsageOfMessage(j: Json, start: string, delta: string): Usage {
    Usage(j.inputTokens(start), j.outputTokens(delta), j.inputTokens(start) + j.outputTokens(delta))
  }

  lemma {:induction false} BlocksWithinMessage(x: Lexicon, j: Json, es: seq<Event>, m: nat, c: Course, n: nat)
    requires OneMessage(es, m) && IsCourse(x, j, FRESH, es, c) && 0 < n < |es|
    ensures var id, model := j.messageID(es[0].data), j.messageModel(es[0].data);
      c.outs[n] == [DataChunk(Role(id, model), None)] + BlocksOut(x, j, id, model, es, n)
  {
    var id, model := j.messageID(es[0].data), j.messageModel(es[0].data);
    var role := [DataChunk(Role(id, model), None)];
    assert Follows(x, j, es, c, n - 1);
    if n == 1 {
      assert BlocksOut(x, j, id, model, es, 1) == [] && [] + role == role == role + [];
    } else {
      BlocksWithinMessage(x, j, es, m, c, n - 1);
      StateWithinMessage(x, j, es, m, c, n);
      assert Emits(x, j, c.states[n], es[n - 1]) == BlockOut(x, j, id, model, es[n - 1]);
      Assoc(role, BlocksOut(x, j, id, model, es, n - 1), BlockOut(x, j, id, model, es[n - 1]));
    }
  }

  /** A well-formed message for the client: the assistant's role, then every piece of text and of tool arguments in
      order, then the mapped stop reason, the usage, and Done; all under the message's own id and model. */
  function Translation(x: Lexicon, j: Json, es: seq<Event>, m: nat): seq<Out>
    requires m < |es|
  {
    var id, model := j.messageID(es[0].data), j.messageModel(es[0].data);
    var usage := UsageOfMessage(j, es[0].data, es[m].data);
    [DataChunk(Role(id, model), None)] + BlocksOut(x, j, id, model, es, |es| - 1) +
    [DataChunk(Finish(id, model, x.finishReason(j.stopReason(es[m].data))), None),
     DataChunk(UsageBody(id, model, usage), Some(usage)), DoneChunk()]
  }

  lemma MessageTranslated(x: Lexicon, j: Json, es: seq<Event>, m: nat, c: Course)
    requires OneMessage(es, m) && IsCourse(x, j, FRESH, es, c)
    ensures c.outs[|es|] == Translation(x, j, es, m)
  {
    BlocksWithinMessage(x, j, es, m, c, |es| - 1);
    StateWithinMessage(x, j, es, m, c, |es|);
    assert Follows(x, j, es, c, |es| - 1);
  }

  /** The same by the names that Anthropic gives its events. */
  ghost predicate OneNamedMessage(ps: seq<Pair>, m: nat) {
    && 0 < m < |ps| - 1
    && ps[0].event == "message_start" && ps[m].event == "message_delta" && ps[|ps| - 1].event == "message_stop"
    && forall i :: 0 < i < |ps| - 1 && i != m ==>
         ps[i].event != "message_start" && ps[i].event != "message_stop" && (ps[i].event == "message_delta" ==> i < m)
  }

  /** What a pair comes out as, by the names of its event and of its delta. */
  function NamedBlockOut(j: Json, id: string, model: string, p: Pair): seq<Out> {
    if p.event == "content_block_delta" && j.deltaType(p.data) == "text_delta" then
      [DataChunk(Content(id, model, j.text(p.data)), None)]
    else if p.event == "content_block_delta" && j.deltaType(p.data) == "input_json_delta" then
      [DataChunk(ToolArguments(id, model, j.index(p.data), j.partial(p.data)), None)]
    else []
  }

  function NamedBlocksOut(j: Json, id: string, model: string, ps: seq<Pair>, n: nat): (out: seq<Out>)
    requires n <= |ps|
  {
    if n == 0 then [] else NamedBlocksOut(j, id, model, ps, n - 1) + NamedBlockOut(j, id, model, ps[n - 1])
  }

  lemma NamedBlock(j: Json, id: string, model: string, p: Pair)
    ensures BlockOut(ANTHROPIC, j, id, model, Event(ANTHROPIC.kindOf(p.event), p.data)) ==
            NamedBlockOut(j, id, model, p)
  {
  }

  lemma {:induction false} NamedBlocks(j: Json, id: string, model: string, ps: seq<Pair>, n: nat)
    requires n <= |ps|
    ensures BlocksOut(ANTHROPIC, j, id, model, DecodeAll(ANTHROPIC, ps), n) == NamedBlocksOut(j, id, model, ps, n)
  {
    if n > 0 {
      NamedBlocks(j, id, model, ps, n - 1);
      NamedBlock(j, id, model, ps[n - 1]);
    }
  }

  /** The stop reasons that have another name for the client; any other goes through as it is. */
  ghost predicate FinishesAs(reason: string, finish: string) {
    && (reason == "end_turn" || reason == "stop_sequence" ==> finish == "stop")
    && (reason == "max_tokens" ==> finish == "length")
    && (reason == "tool_use" ==> finish == "tool_calls")
    && (reason != "end_turn" && reason != "stop_sequence" && reason != "max_tokens" && reason != "tool_use" ==>
        finish == reason)
  }

  lemma StopReasonNamed(reason: string)
    ensures FinishesAs(reason, MapStopReason(reason))
  {
  }

  lemma NamedMessage(ps: seq<Pair>, m: nat)
    requires OneNamedMessage(ps, m)
    ensures OneMessage(DecodeAll(ANTHROPIC, ps), m)
  {
  }

  /** A message for the client, by the names of its parts. */
  function NamedTranslation(j: Json, ps: seq<Pair>, m: nat, finish: string): seq<Out>
    requires m < |ps|
  {
    var id, model := j.messageID(ps[0].data), j.messageModel(ps[0].data);
    var input, output := j.inputTokens(ps[0].data), j.outputTokens(ps[m].data);
    var usage := Usage(input, output, input + output);
    [DataChunk(Role(id, model), None)] + NamedBlocksOut(j, id, model, ps, |ps| - 1) +
    [DataChunk(Finish(id, model, finish), None), DataChunk(UsageBody(id, model, usage), Some(usage)), DoneChunk()]
  }

  lemma TranslationNamed(j: Json, ps: seq<Pair>, m: nat)
    requires m < |ps|
    ensures Translation(ANTHROPIC, j, DecodeAll(ANTHROPIC, ps), m) ==
            NamedTranslation(j, ps, m, MapStopReason(j.stopReason(ps[m].data)))
  {
    var es, id, model := DecodeAll(ANTHROPIC, ps), j.messageID(ps[0].data), j.messageModel(ps[0].data);
    assert es[0].data == ps[0].data && es[m].data == ps[m].data;
    NamedBlocks(j, id, model, ps, |ps| - 1);
    assert ANTHROPIC.finishReason == MapStopReason;
  }

  /** From the wire to the client: a message printed as event frames, with comments, blanks and unknown fields
      anywhere between its lines, is translated. */
  lemma WireMessageTranslated(
      j: Json, lines: seq<string>, ps: seq<Pair>, m: nat, c: Course, cancelled: nat -> bool)
    returns (finish: string)
    requires Plain(lines) && Printable(ps) && Signal(ParseLine, lines) == PrintPairs(ps) && OneNamedMessage(ps, m)
    requires IsCourse(ANTHROPIC, j, FRESH, DecodeAll(ANTHROPIC, Pairs(ParseLine, Lines(Join(lines)).lines, "")), c)
    ensures !Lines(Join(lines)).tooLong && |c.outs| == |ps| + 1
    ensures FinishesAs(j.stopReason(ps[m].data), finish)
    ensures c.outs[|ps|] == NamedTranslation(j, ps, m, finish)
    ensures (forall k: nat :: !cancelled(k)) ==> Heard(c.outs[|ps|], [], cancelled, 0) == c.outs[|ps|]
  {
    PairsSurvive(lines, ps);
    NamedMessage(ps, m);
    MessageTranslated(ANTHROPIC, j, DecodeAll(ANTHROPIC, ps), m, c);
    finish := MapStopReason(j.stopReason(ps[m].data));
    StopReasonNamed(j.stopReason(ps[m].data));
    TranslationNamed(j, ps, m);
    if forall k: nat :: !cancelled(k) {
      HeardUntilCancelled(c.outs[|ps|], [], cancelled, 0, |c.outs[|ps|]|);
      assert c.outs[|ps|] + [] == c.outs[|ps|];
    }
  }
}
