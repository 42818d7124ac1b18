/**
  Server-sent events on the wire: the printer of internal/server/sse.go, the line scanner and parser of
  internal/provider/sseutil/reader.go, and the reader of internal/provider/sseutil/stream.go. The
  format is the event stream of sections 9.2.5 and 9.2.6 of the WHATWG HTML Living Standard, in the
  subset with one data line per event that the gateway speaks.

  Text is a sequence of bytes, each a `char`. Extracting usage from a JSON payload is a parameter.
 */
module Sse {

  import opened Basics

  datatype Usage = Usage(promptTokens: int, completionTokens: int, totalTokens: int)

  datatype StreamChunk<+D> = StreamChunk(data: Option<D>, usage: Option<Usage>, done: bool, err: bool)

  function DataChunk<D>(d: D, u: Option<Usage>): StreamChunk<D> { StreamChunk(Some(d), u, false, false) }

  function DoneChunk<D>(): StreamChunk<D> { StreamChunk(None, None, true, false) }

  function ErrChunk<D>(): StreamChunk<D> { StreamChunk(None, None, false, true) }

  // ------------------------------------------------------------- printing

  datatype Frame = DataFrame(payload: string) | KeepAlive | ErrorFrame(msg: Message) | DoneFrame

  /** The message of an error frame: the one the streaming handler sends, or any other. */
  datatype Message = UpstreamFailed | Other(text: string)

  function Text(msg: Message): string {
    match msg
    case UpstreamFailed => "upstream stream error"
    case Other(text) => text
  }

  const DONE := "[DONE]"

  function ErrorBody(msg: Message): string {
    "{\"error\":{\"message\":\"" + Text(msg) + "\",\"type\":\"stream_error\"}}"
  }

  function Bytes(f: Frame): string {
    match f
    case DataFrame(p) => "data: " + p + "\n\n"
    case KeepAlive => ": keep-alive\n\n"
    case ErrorFrame(msg) => "event: error\ndata: " + ErrorBody(msg) + "\n\n"
    case DoneFrame => "data: [DONE]\n\n"
  }

  function Print(frames: seq<Frame>): (bytes: string)
  {
    if frames == [] then "" else Bytes(frames[0]) + Print(frames[1..])
  }

  /** What goes over the wire, byte by byte: a keep-alive is a comment, and every frame ends with an empty line. */
  lemma WireForms(p: string, msg: Message)
    ensures Bytes(DataFrame(p)) == "data: " + p + "\n\n" && Bytes(DoneFrame) == "data: [DONE]\n\n"
    ensures Bytes(KeepAlive) == ": keep-alive\n\n"
    ensures Bytes(ErrorFrame(msg)) ==
      "event: error\ndata: " + ("{\"error\":{\"message\":\"" + Text(msg) + "\",\"type\":\"stream_error\"}}") + "\n\n"
  {
  }

  lemma {:induction false} PrintAppend(frames: seq<Frame>, f: Frame)
    ensures Print(frames + [f]) == Print(frames) + Bytes(f)
  {
    if frames == [] {
      assert frames + [f] == [f] && [f][1..] == [];
      assert Print([f]) == Bytes(f) + "" && Bytes(f) + "" == "" + Bytes(f);
    } else {
      PrintAppend(frames[1..], f);
      assert (frames + [f])[1..] == frames[1..] + [f] && (frames + [f])[0] == frames[0];
      Assoc(Bytes(frames[0]), Print(frames[1..]), Bytes(f));
    }
  }

  /** The response as it is written: the bytes, and the frames they are. */
  class ResponseWriter {
    var out: string
    ghost var frames: seq<Frame>

    ghost predicate Valid()
      reads this
    {
      out == Print(frames)
    }

    constructor ()
      ensures Valid() && frames == []
    {
      out, frames := "", [];
    }

    method Write(bytes: string)
      modifies this`out
      ensures out == old(out) + bytes
    {
      out := out + bytes;
    }

    method WriteData(data: string)
      requires Valid()
      modifies this
      ensures Valid() && frames == old(frames) + [DataFrame(data)]
    {
      PrintAppend(frames, DataFrame(data));
      Write("data: ");
      Write(data);
      Write("\n\n");
      Assoc3(old(out), "data: ", data, "\n\n");
      frames := frames + [DataFrame(data)];
    }

    method WriteDone()
      requires Valid()
      modifies this
      ensures Valid() && frames == old(frames) + [DoneFrame]
    {
      PrintAppend(frames, DoneFrame);
      Write("data: [DONE]\n\n");
      frames := frames + [DoneFrame];
    }

    method WriteKeepAlive()
      requires Valid()
      modifies this
      ensures Valid() && frames == old(frames) + [KeepAlive]
    {
      PrintAppend(frames, KeepAlive);
      Write(": keep-alive\n\n");
      frames := frames + [KeepAlive];
    }

    method WriteError(msg: Message)
      requires Valid()
      modifies this
      ensures Valid() && frames == old(frames) + [ErrorFrame(msg)]
    {
      PrintAppend(frames, ErrorFrame(msg));
      Write("event: error\ndata: ");
      WriteErrorBody(msg);
      Write("\n\n");
      Assoc3(old(out), "event: error\ndata: ", ErrorBody(msg), "\n\n");
      frames := frames + [ErrorFrame(msg)];
    }

    method WriteErrorBody(msg: Message)
      modifies this`out
      ensures out == old(out) + ErrorBody(msg)
    {
      Write("{\"error\":{\"message\":\"");
      Write(Text(msg));
      Write("\",\"type\":\"stream_error\"}}");
      Assoc3(old(out), "{\"error\":{\"message\":\"", Text(msg), "\",\"type\":\"stream_error\"}}");
    }
  }

  lemma Assoc3<T>(o: seq<T>, a: seq<T>, b: seq<T>, c: seq<T>)
    ensures o + a + b + c == o + (a + b + c)
  {
  }

  // ------------------------------------------------------------- scanning

  /** A line and its newline must fit the scanner's buffer. */
  const MAX_LINE := 65536

  datatype Scan = Scan(lines: seq<string>, tooLong: bool)

  function FirstNewline(s: string): (k: nat)
    ensures k <= |s| && (k < |s| ==> s[k] == '\n')
    ensures forall i :: 0 <= i < k ==> s[i] != '\n'
  {
    if s == "" || s[0] == '\n' then 0 else 1 + FirstNewline(s[1..])
  }

  function DropCR(line: string): string {
    if line != "" && line[|line| - 1] == '\r' then line[..|line| - 1] else line
  }

  /** The lines of a body, up to the first that does not fit. */
  function Lines(body: string): (s: Scan)
    decreases |body|
  {
    if body == "" then Scan([], false)
    else
      var k := FirstNewline(body);
      if k >= MAX_LINE then Scan([], true)
      else
        var rest := Lines(if k < |body| then body[k + 1..] else "");
        Scan([DropCR(body[..k])] + rest.lines, rest.tooLong)
  }

  predicate OneLine(line: string) {
    forall i :: 0 <= i < |line| ==> line[i] != '\n'
  }

  lemma FirstNewlineAt(line: string, rest: string)
    requires OneLine(line)
    ensures FirstNewline(line + "\n" + rest) == |line|
  {
    var s := line + "\n" + rest;
    assert s[|line|] == '\n';
    assert forall i :: 0 <= i < |line| ==> s[i] == line[i] && s[i] != '\n';
  }

  lemma LineThenRest(line: string, rest: string)
    requires OneLine(line)
    ensures |line| < MAX_LINE ==>
      Lines(line + "\n" + rest) == Scan([DropCR(line)] + Lines(rest).lines, Lines(rest).tooLong)
    ensures |line| >= MAX_LINE ==> Lines(line + "\n" + rest) == Scan([], true)
  {
    var s := line + "\n" + rest;
    FirstNewlineAt(line, rest);
    assert s[..|line|] == line && s[|line| + 1..] == rest;
  }

  /** A last line without a newline is a line like any other. */
  lemma LastLine(line: string)
    requires OneLine(line) && line != ""
    ensures Lines(line) == if |line| < MAX_LINE then Scan([DropCR(line)], false) else Scan([], true)
  {
    var k := FirstNewline(line);
    assert k == |line| && line[..k] == line;
  }

  // -------------------------------------------------------------- parsing

  datatype Parsed = Ignored | Field(event: string, data: string)

  function FirstColon(s: string): (k: nat)
    ensures k <= |s| && (k < |s| ==> s[k] == ':')
    ensures forall i :: 0 <= i < k ==> s[i] != ':'
  {
    if s == "" || s[0] == ':' then 0 else 1 + FirstColon(s[1..])
  }

  function TrimSpace(s: string): string {
    if s != "" && s[0] == ' ' then s[1..] else s
  }

  function ParseLine(line: string): Parsed {
    if line == "" then Ignored
    else if line[0] == ':' then Ignored
    else
      var k := FirstColon(line);
      if k == |line| then Ignored
      else
        var key, value := line[..k], TrimSpace(line[k + 1..]);
        if key == "event" then Field(value, "")
        else if key == "data" then Field("", value)
        else Ignored
  }

  lemma ColonAt(key: string, rest: string)
    requires forall i :: 0 <= i < |key| ==> key[i] != ':'
    ensures FirstColon(key + ":" + rest) == |key|
  {
    var s := key + ":" + rest;
    assert s[|key|] == ':';
    assert forall i :: 0 <= i < |key| ==> s[i] == key[i] && s[i] != ':';
  }

  lemma ParsePrinted(value: string)
    ensures ParseLine("data: " + value) == Field("", value)
    ensures ParseLine("event: " + value) == Field(value, "")
  {
    var d, e := "data: " + value, "event: " + value;
    assert d == "data" + ":" + (" " + value) && e == "event" + ":" + (" " + value);
    ColonAt("data", " " + value);
    ColonAt("event", " " + value);
    assert d[..4] == "data" && e[..5] == "event";
    assert d[5..] == " " + value && e[6..] == " " + value;
    assert (" " + value)[1..] == value;
  }

  lemma KeyThenRest(key: string, line: string)
    requires key + ":" <= line && ':' !in key
    ensures FirstColon(line) == |key| && line[..|key|] == key
  {
    assert line == key + ":" + line[|key| + 1..];
    ColonAt(key, line[|key| + 1..]);
  }

  /** Exactly the lines that begin with "event:" or "data:" carry a field: what follows, less one space. */
  lemma ParsesExactly(line: string)
    ensures ParseLine(line).Field? <==> "event:" <= line || "data:" <= line
    ensures "event:" <= line ==> ParseLine(line) == Field(TrimSpace(line[6..]), "")
    ensures "data:" <= line ==> ParseLine(line) == Field("", TrimSpace(line[5..]))
  {
    var k := FirstColon(line);
    assert "event" + ":" == "event:" && "data" + ":" == "data:";
    if "event:" <= line {
      KeyThenRest("event", line);
    } else if "data:" <= line {
      KeyThenRest("data", line);
    } else if k < |line| {
      assert line == line[..k] + ":" + line[k + 1..];
    }
  }

  // -------------------------------------------------------------- reading

  type UsageOf = string -> Option<Usage>

  /** The chunks that a body yields when nobody cancels. */
  function Emit(lines: seq<string>, tooLong: bool, usageOf: UsageOf): (chunks: seq<StreamChunk<string>>)
  {
    if lines == [] then if tooLong then [ErrChunk()] else []
    else
      match ParseLine(lines[0])
      case Ignored => Emit(lines[1..], tooLong, usageOf)
      case Field(_, data) =>
        if data == DONE then [DoneChunk()]
        else [DataChunk(data, usageOf(data))] + Emit(lines[1..], tooLong, usageOf)
  }

  function ReadBody(body: string, usageOf: UsageOf): seq<StreamChunk<string>> {
    Emit(Lines(body).lines, Lines(body).tooLong, usageOf)
  }

  /** A cancellation noticed instead of sending data chunk number `n`, for the first such `n`, ends the stream
      with an error. */
  function Cut(chunks: seq<StreamChunk<string>>, n: nat, cancelled: nat -> bool): (sent: seq<StreamChunk<string>>)
    decreases |chunks|
  {
    if chunks == [] then []
    else if chunks[0].data.Some? && cancelled(n) then [ErrChunk()]
    else [chunks[0]] + Cut(chunks[1..], n + 1, cancelled)
  }

  /** All of it if no data chunk is cancelled, and else what came before the first one that is, and an error. */
  lemma {:induction false} CutUntilCancelled(
      chunks: seq<StreamChunk<string>>, n: nat, cancelled: nat -> bool, k: nat)
    requires k <= |chunks| && forall i: nat :: i < k ==> !(chunks[i].data.Some? && cancelled(n + i))
    ensures k == |chunks| ==> Cut(chunks, n, cancelled) == chunks
    ensures k < |chunks| && chunks[k].data.Some? && cancelled(n + k) ==>
      Cut(chunks, n, cancelled) == chunks[..k] + [ErrChunk()]
    decreases k
  {
    if k > 0 {
      var rest := chunks[1..];
      assert !(chunks[0].data.Some? && cancelled(n + 0));
      forall i: nat | i < k - 1
        ensures !(rest[i].data.Some? && cancelled(n + 1 + i))
      {
        assert rest[i] == chunks[i + 1] && n + 1 + i == n + (i + 1);
      }
      CutUntilCancelled(rest, n + 1, cancelled, k - 1);
      assert chunks == [chunks[0]] + rest && chunks[..k] == [chunks[0]] + rest[..k - 1];
    }
  }

  lemma CutCons(c: StreamChunk<string>, rest: seq<StreamChunk<string>>, n: nat, cancelled: nat -> bool)
    ensures Cut([c] + rest, n, cancelled) ==
      if c.data.Some? && cancelled(n) then [ErrChunk()] else [c] + Cut(rest, n + 1, cancelled)
  {
    assert ([c] + rest)[1..] == rest;
  }

  lemma EmitNext(lines: seq<string>, i: nat, tooLong: bool, usageOf: UsageOf)
    requires i < |lines|
    ensures var rest := Emit(lines[i + 1..], tooLong, usageOf);
      Emit(lines[i..], tooLong, usageOf) ==
      match ParseLine(lines[i]) {
        case Ignored => rest
        case Field(_, data) => if data == DONE then [DoneChunk()] else [DataChunk(data, usageOf(data))] + rest
      }
  {
    assert lines[i..][1..] == lines[i + 1..];
  }

  /** The reader's loop over the scanner's lines. */
  method ReadLines(lines: seq<string>, tooLong: bool, usageOf: UsageOf, cancelled: nat -> bool)
    returns (ch: seq<StreamChunk<string>>)
    ensures ch == Cut(Emit(lines, tooLong, usageOf), 0, cancelled)
  {
    ghost var all := Cut(Emit(lines, tooLong, usageOf), 0, cancelled);
    assert lines[0..] == lines;
    ch := [];
    for i := 0 to |lines|
      invariant ch + Cut(Emit(lines[i..], tooLong, usageOf), |ch|, cancelled) == all
    {
      EmitNext(lines, i, tooLong, usageOf);
      ghost var rest := Emit(lines[i + 1..], tooLong, usageOf);
      var parsed := ParseLine(lines[i]);
      if parsed.Ignored? {
        continue;
      }
      if parsed.data == DONE {
        CutCons(DoneChunk(), [], |ch|, cancelled);
        return ch + [DoneChunk()];
      }
      var chunk := DataChunk(parsed.data, usageOf(parsed.data));
      CutCons(chunk, rest, |ch|, cancelled);
      if cancelled(|ch|) {
        return ch + [ErrChunk()];
      }
      Assoc(ch, [chunk], Cut(rest, |ch| + 1, cancelled));
      ch := ch + [chunk];
    }
    if tooLong {
      CutCons(ErrChunk(), [], |ch|, cancelled);
      ch := ch + [ErrChunk()];
    }
  }

  method ReadSSEStream(body: string, usageOf: UsageOf, cancelled: nat -> bool) returns (ch: seq<StreamChunk<string>>)
    ensures ch == Cut(ReadBody(body, usageOf), 0, cancelled)
  {
    var scan := Lines(body);
    ch := ReadLines(scan.lines, scan.tooLong, usageOf, cancelled);
  }

  // ----------------------------------------------------------- round trip

  /** A payload that survives the wire. */
  predicate Clean(p: string) {
    OneLine(p) && (p != "" ==> p[|p| - 1] != '\r') && p != DONE && |p| + 6 < MAX_LINE
  }

  lemma DropCRAfterPrefix(prefix: string, p: string)
    requires prefix != "" && prefix[|prefix| - 1] != '\r'
    ensures DropCR(prefix + p) == prefix + DropCR(p)
  {
    if p != "" {
      assert (prefix + p)[|prefix| + |p| - 1] == p[|p| - 1];
      assert (prefix + p)[..|prefix| + |p| - 1] == prefix + p[..|p| - 1];
    }
  }

  /** A printed line that ends in an empty line reads as itself. */
  lemma ReadLine(line: string, rest: string, usageOf: UsageOf)
    requires OneLine(line)
    ensures |line| >= MAX_LINE ==> ReadBody(line + "\n" + rest, usageOf) == [ErrChunk()]
    ensures |line| < MAX_LINE ==> ReadBody(line + "\n" + rest, usageOf) == After(ParseLine(DropCR(line)), rest, usageOf)
  {
    LineThenRest(line, rest);
    if |line| < MAX_LINE {
      assert ([DropCR(line)] + Lines(rest).lines)[1..] == Lines(rest).lines;
    }
  }

  /** What a parsed line and the rest of the body yield. */
  function After(parsed: Parsed, rest: string, usageOf: UsageOf): seq<StreamChunk<string>> {
    if parsed.Ignored? then ReadBody(rest, usageOf)
    else if parsed.data == DONE then [DoneChunk()]
    else [DataChunk(parsed.data, usageOf(parsed.data))] + ReadBody(rest, usageOf)
  }

  lemma ReadBlank(rest: string, usageOf: UsageOf)
    ensures ReadBody("\n" + rest, usageOf) == ReadBody(rest, usageOf)
  {
    assert "\n" + rest == "" + "\n" + rest;
    ReadLine("", rest, usageOf);
  }

  lemma Regroup<T>(a: seq<T>, b: seq<T>, x: seq<T>, c: seq<T>, rest: seq<T>)
    ensures (a + (b + x + c) + (x + x)) + rest == (a + b) + x + (c + (x + x) + rest)
    ensures (a + b + (x + x)) + rest == (a + b) + x + (x + rest)
  {
  }

  lemma SplitOneLine(p: string, rest: string)
    ensures Bytes(DataFrame(p)) + rest == ("data: " + p) + "\n" + ("\n" + rest)
  {
    assert "\n\n" == "\n" + "\n";
    Regroup("data: ", p, "\n", "", rest);
  }

  lemma SplitAtNewline(a: string, b: string, rest: string)
    ensures Bytes(DataFrame(a + "\n" + b)) + rest == ("data: " + a) + "\n" + (b + "\n\n" + rest)
  {
    assert "\n\n" == "\n" + "\n";
    Regroup("data: ", a, "\n", b, rest);
  }

  lemma OneLineAfterPrefix(prefix: string, p: string)
    requires OneLine(prefix) && OneLine(p)
    ensures OneLine(prefix + p)
  {
  }

  lemma ReadDataLine(q: string, tail: string, usageOf: UsageOf)
    requires OneLine(q)
    ensures |q| + 6 >= MAX_LINE ==> ReadBody(("data: " + q) + "\n" + tail, usageOf) == [ErrChunk()]
    ensures |q| + 6 < MAX_LINE ==>
      ReadBody(("data: " + q) + "\n" + tail, usageOf) == After(Field("", DropCR(q)), tail, usageOf)
  {
    OneLineAfterPrefix("data: ", q);
    ReadLine("data: " + q, tail, usageOf);
    DropCRAfterPrefix("data: ", q);
    ParsePrinted(DropCR(q));
  }

  lemma ReadEventLine(event: string, tail: string, usageOf: UsageOf)
    requires OneLine(event) && |event| + 7 < MAX_LINE
    ensures ReadBody(("event: " + event) + "\n" + tail, usageOf) ==
            [DataChunk("", usageOf(""))] + ReadBody(tail, usageOf)
  {
    OneLineAfterPrefix("event: ", event);
    ReadLine("event: " + event, tail, usageOf);
    DropCRAfterPrefix("event: ", event);
    ParsePrinted(DropCR(event));
  }

  /** The first line of a data frame, whatever the payload: everything up to its first newline. */
  lemma ReadData(p: string, rest: string, usageOf: UsageOf) returns (q: string, tail: string)
    ensures q <= p && OneLine(q) && (OneLine(p) ==> q == p && tail == "\n" + rest)
    ensures !OneLine(p) ==> |q| < |p|
    ensures |q| + 6 >= MAX_LINE ==> ReadBody(Bytes(DataFrame(p)) + rest, usageOf) == [ErrChunk()]
    ensures |q| + 6 < MAX_LINE ==>
      ReadBody(Bytes(DataFrame(p)) + rest, usageOf) == After(Field("", DropCR(q)), tail, usageOf)
  {
    var k := FirstNewline(p);
    q := p[..k];
    if k == |p| {
      tail := "\n" + rest;
      assert q == p;
      SplitOneLine(p, rest);
    } else {
      tail := p[k + 1..] + "\n\n" + rest;
      assert p == q + "\n" + p[k + 1..];
      SplitAtNewline(q, p[k + 1..], rest);
    }
    ReadDataLine(q, tail, usageOf);
  }

  /** What a frame yields to a reader. */
  function Yields(f: Frame, usageOf: UsageOf): (chunks: seq<StreamChunk<string>>)
  {
    match f
    case DataFrame(p) => [DataChunk(p, usageOf(p))]
    case KeepAlive => []
    case ErrorFrame(msg) => [DataChunk("", usageOf("")), DataChunk(ErrorBody(msg), usageOf(ErrorBody(msg)))]
    case DoneFrame => [DoneChunk()]
  }

  function AllYields(frames: seq<Frame>, usageOf: UsageOf): (chunks: seq<StreamChunk<string>>)
  {
    if frames == [] then [] else Yields(frames[0], usageOf) + AllYields(frames[1..], usageOf)
  }

  lemma ReadCleanData(p: string, rest: string, usageOf: UsageOf)
    requires Clean(p)
    ensures ReadBody(Bytes(DataFrame(p)) + rest, usageOf) == [DataChunk(p, usageOf(p))] + ReadBody(rest, usageOf)
  {
    var q, tail := ReadData(p, rest, usageOf);
    ReadBlank(rest, usageOf);
  }

  /** A payload that is not clean is not what the reader finds first. */
  lemma UncleanIsLost(p: string, rest: string, usageOf: UsageOf)
    requires !Clean(p)
    ensures var r := ReadBody(Bytes(DataFrame(p)) + rest, usageOf); r != [] && r[0].data != Some(p)
  {
    var q, tail := ReadData(p, rest, usageOf);
    assert |DropCR(q)| <= |q|;
  }

  lemma ReadKeepAlive(rest: string, usageOf: UsageOf)
    ensures ReadBody(Bytes(KeepAlive) + rest, usageOf) == ReadBody(rest, usageOf)
  {
    assert Bytes(KeepAlive) + rest == ": keep-alive" + "\n" + ("\n" + rest);
    ReadLine(": keep-alive", "\n" + rest, usageOf);
    ReadBlank(rest, usageOf);
  }

  lemma ReadDone(rest: string, usageOf: UsageOf)
    ensures ReadBody(Bytes(DoneFrame) + rest, usageOf) == [DoneChunk()]
  {
    assert Bytes(DoneFrame) + rest == Bytes(DataFrame(DONE)) + rest;
    var q, tail := ReadData(DONE, rest, usageOf);
  }

  lemma ReadErrorEvent(body: string, rest: string, usageOf: UsageOf)
    ensures ReadBody(("event: error\ndata: " + body + "\n\n") + rest, usageOf) ==
            [DataChunk("", usageOf(""))] + ReadBody(Bytes(DataFrame(body)) + rest, usageOf)
  {
    SplitError(body, rest);
    ReadEventLine("error", Bytes(DataFrame(body)) + rest, usageOf);
  }

  /** The reader takes the event line of an error frame for an empty payload, and its data line for a payload. */
  lemma ReadError(msg: Message, rest: string, usageOf: UsageOf)
    requires Clean(ErrorBody(msg))
    ensures ReadBody(Bytes(ErrorFrame(msg)) + rest, usageOf) ==
            Yields(ErrorFrame(msg), usageOf) + ReadBody(rest, usageOf)
  {
    var body := ErrorBody(msg);
    ReadErrorEvent(body, rest, usageOf);
    ReadCleanData(body, rest, usageOf);
    Assoc([DataChunk("", usageOf(""))], [DataChunk(body, usageOf(body))], ReadBody(rest, usageOf));
  }

  lemma SplitError(body: string, rest: string)
    ensures ("event: error\ndata: " + body + "\n\n") + rest ==
            ("event: " + "error") + "\n" + (Bytes(DataFrame(body)) + rest)
  {
    assert "event: error\ndata: " == ("event: " + "error") + "\n" + "data: ";
  }

  /** Frames that may come before the end of a stream. */
  ghost predicate Ongoing(frames: seq<Frame>) {
    forall i :: 0 <= i < |frames| ==>
      !frames[i].DoneFrame? && (frames[i].ErrorFrame? ==> Clean(ErrorBody(frames[i].msg)))
  }

  ghost predicate AllClean(frames: seq<Frame>) {
    forall i :: 0 <= i < |frames| && frames[i].DataFrame? ==> Clean(frames[i].payload)
  }

  lemma CleanCons(frames: seq<Frame>)
    requires frames != []
    ensures AllClean(frames) <==> (frames[0].DataFrame? ==> Clean(frames[0].payload)) && AllClean(frames[1..])
  {
    assert frames == [frames[0]] + frames[1..];
  }

  /** Printing data frames, keep-alives and errors, then [DONE], and reading the bytes gives back what was
      printed, in order, and then Done: if and only if every payload is clean. What follows [DONE] is never read. */
  lemma {:induction false} RoundTripIffClean(frames: seq<Frame>, after: string, usageOf: UsageOf)
    requires Ongoing(frames)
    ensures ReadBody(Print(frames) + (Bytes(DoneFrame) + after), usageOf) == AllYields(frames, usageOf) + [DoneChunk()]
            <==> AllClean(frames)
  {
    var rest := Bytes(DoneFrame) + after;
    if frames == [] {
      assert Print(frames) + rest == rest;
      ReadDone(after, usageOf);
    } else {
      var f, tail := frames[0], frames[1..];
      RoundTripIffClean(tail, after, usageOf);
      var more, due := Print(tail) + rest, AllYields(tail, usageOf) + [DoneChunk()];
      Assoc(Bytes(f), Print(tail), rest);
      Assoc(Yields(f, usageOf), AllYields(tail, usageOf), [DoneChunk()]);
      ReadFrame(f, more, due, usageOf);
      CleanCons(frames);
    }
  }

  /** One frame more: read back right if and only if it is clean and the rest is read back right. */
  lemma ReadFrame(f: Frame, more: string, due: seq<StreamChunk<string>>, usageOf: UsageOf)
    requires !f.DoneFrame? && (f.ErrorFrame? ==> Clean(ErrorBody(f.msg)))
    ensures ReadBody(Bytes(f) + more, usageOf) == Yields(f, usageOf) + due <==>
            (f.DataFrame? ==> Clean(f.payload)) && ReadBody(more, usageOf) == due
  {
    Cancels(Yields(f, usageOf), ReadBody(more, usageOf), due);
    match f {
      case DataFrame(p) =>
        if Clean(p) {
          ReadCleanData(p, more, usageOf);
        } else {
          UncleanIsLost(p, more, usageOf);
        }
      case KeepAlive =>
        ReadKeepAlive(more, usageOf);
      case ErrorFrame(msg) =>
        ReadError(msg, more, usageOf);
    }
  }

  /** The whole stream: the frames and the [DONE] that ends them. */
  lemma ReadsBack(frames: seq<Frame>, usageOf: UsageOf)
    requires Ongoing(frames)
    ensures ReadBody(Print(frames + [DoneFrame]), usageOf) == AllYields(frames, usageOf) + [DoneChunk()] <==>
            AllClean(frames)
  {
    RoundTripIffClean(frames, "", usageOf);
    PrintAppend(frames, DoneFrame);
    assert Bytes(DoneFrame) + "" == Bytes(DoneFrame);
  }

  /** Chunk `k` is the first at which the reader finds itself cancelled. */
  ghost predicate CancelledAt(cancelled: nat -> bool, k: nat) {
    cancelled(k) && forall i: nat :: i < k ==> !cancelled(i)
  }

  /** What is sent of data chunks and the Done that ends them. */
  lemma CutOfStream(due: seq<StreamChunk<string>>, cancelled: nat -> bool)
    requires forall i :: 0 <= i < |due| ==> due[i].data.Some?
    ensures forall k: nat :: k < |due| && CancelledAt(cancelled, k) ==>
      Cut(due + [DoneChunk()], 0, cancelled) == due[..k] + [ErrChunk()]
  {
    var all := due + [DoneChunk()];
    forall k: nat | k < |due| && CancelledAt(cancelled, k)
      ensures Cut(all, 0, cancelled) == due[..k] + [ErrChunk()]
    {
      CutUntilCancelled(all, 0, cancelled, k);
      assert all[..k] == due[..k];
    }
  }

  /** The reader on what the writer wrote: unless cancelled it sends what was written, in order, and then Done, if and
      only if every payload is clean; cancelled at data chunk `k` it sends what came before that, and an error. */
  method ReadBack(w: ResponseWriter, usageOf: UsageOf, cancelled: nat -> bool, ghost frames: seq<Frame>)
    returns (ch: seq<StreamChunk<string>>)
    requires w.Valid() && w.frames == frames + [DoneFrame] && Ongoing(frames)
    ensures (forall k: nat :: !cancelled(k)) ==>
      (ch == AllYields(frames, usageOf) + [DoneChunk()] <==> AllClean(frames))
    ensures AllClean(frames) ==> forall k: nat :: k < |AllYields(frames, usageOf)| && CancelledAt(cancelled, k) ==>
      ch == AllYields(frames, usageOf)[..k] + [ErrChunk()]
  {
    ch := ReadSSEStream(w.out, usageOf, cancelled);
    ReadsBack(frames, usageOf);
    YieldsAreData(frames, usageOf);
    CutOfStream(AllYields(frames, usageOf), cancelled);
    ghost var all := ReadBody(w.out, usageOf);
    if forall k: nat :: !cancelled(k) {
      CutUntilCancelled(all, 0, cancelled, |all|);
    }
  }

  lemma {:induction false} YieldsAreData(frames: seq<Frame>, usageOf: UsageOf)
    requires Ongoing(frames)
    ensures forall i :: 0 <= i < |AllYields(frames, usageOf)| ==> AllYields(frames, usageOf)[i].data.Some?
  {
    if frames != [] {
      YieldsAreData(frames[1..], usageOf);
    }
  }

  lemma UpstreamErrorIsClean()
    ensures Clean(ErrorBody(UpstreamFailed))
  {
    var t := Text(UpstreamFailed);
    assert |t| == 21;
    assert OneLine(t);
    OneLineAfterPrefix("{\"error\":{\"message\":\"", t);
    OneLineAfterPrefix("{\"error\":{\"message\":\"" + t, "\",\"type\":\"stream_error\"}}");
    assert ErrorBody(UpstreamFailed)[0] == '{' && DONE[0] == '[';
  }

  lemma Cancels<T>(a: seq<T>, b: seq<T>, c: seq<T>)
    ensures a + b == a + c <==> b == c
  {
    assert (a + b)[|a|..] == b && (a + c)[|a|..] == c;
  }
}
