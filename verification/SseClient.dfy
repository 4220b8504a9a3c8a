/**
 The browser's reader of one run's event stream: the buffer loop over one response, and the
 reconnect loop around it.
 */
module SseClient {
  import opened Results
  import opened SseLines
  import opened AgentEvents

  datatype Status =
    | Running
    | Terminal         // a terminal event was handed over
    | ProtocolFailed   // a frame could not be parsed
    | CallbackFailed   // onEvent threw, or was aborted

  /** What the reader has handed to onEvent, the highest sequence it accepted, and its open frame. */
  datatype Client = Client(
    handed: seq<ClientEvent>, accepted: Option<nat>, frame: Frame, status: Status)

  /** onEvent: given everything handed over so far, this event last, does it return normally? */
  type Callback = seq<ClientEvent> -> bool

  function Sink(cb: Callback, cl: Client, p: Parsed): Client {
    if cl.status != Running then cl
    else
      match p
      case Nothing => cl
      case Malformed => cl.(status := ProtocolFailed)
      case Event(e) =>
        if cl.accepted.Some? && e.sequence <= cl.accepted.value then cl
        else
          var handed := cl.handed + [e];
          if !cb(handed) then cl.(handed := handed, status := CallbackFailed)
          else cl.(handed := handed, accepted := Some(e.sequence),
                   status := if e.kind in TERMINAL_TYPES then Terminal else Running)
  }

  function StepLine(c: Codec, cb: Callback, cl: Client, line: string): Client {
    if cl.status != Running then cl
    else if line == "" then Sink(cb, cl.(frame := EMPTY_FRAME), ParseAgentEvent(c, cl.frame))
    else cl.(frame := ProcessLine(cl.frame, line))
  }

  function RunLines(c: Codec, cb: Callback, cl: Client, lines: seq<string>): Client
    decreases |lines|
  {
    if lines == [] then cl else RunLines(c, cb, StepLine(c, cb, cl, lines[0]), lines[1..])
  }

  lemma {:induction false} RunLinesAppend(c: Codec, cb: Callback, cl: Client, a: seq<string>, b: seq<string>)
    ensures RunLines(c, cb, cl, a + b) == RunLines(c, cb, RunLines(c, cb, cl, a), b)
    decreases |a|
  {
    if a == [] {
      assert a + b == b;
    } else {
      assert (a + b)[1..] == a[1..] + b;
      RunLinesAppend(c, cb, StepLine(c, cb, cl, a[0]), a[1..], b);
    }
  }

  lemma RunLinesFirst(c: Codec, cb: Callback, cl: Client, line: string, rest: seq<string>)
    ensures RunLines(c, cb, cl, [line] + rest) == RunLines(c, cb, StepLine(c, cb, cl, line), rest)
  {
    assert ([line] + rest)[1..] == rest;
  }

  lemma {:induction false} StoppedIgnoresLines(c: Codec, cb: Callback, cl: Client, lines: seq<string>)
    requires cl.status != Running
    ensures RunLines(c, cb, cl, lines) == cl
    decreases |lines|
  {
    if lines != [] {
      StoppedIgnoresLines(c, cb, cl, lines[1..]);
    }
  }

  datatype Ending = EndOfStream | ReadFailed

  // ----- reading in chunks -----

  function Concat(chunks: seq<string>): string {
    if chunks == [] then "" else chunks[0] + Concat(chunks[1..])
  }

  /** Reading one chunk after the other: each adds to the buffer, whose finished lines are run. */
  function ReadChunks(c: Codec, cb: Callback, cl: Client, buffer: string, chunks: seq<string>, eof: bool): Client
    decreases |chunks|
  {
    if cl.status != Running then cl
    else if chunks == [] then if eof then RunLines(c, cb, cl, TakeLines(buffer, true).lines) else cl
    else
      var t := TakeLines(buffer + chunks[0], false);
      ReadChunks(c, cb, RunLines(c, cb, cl, t.lines), t.rest, chunks[1..], eof)
  }

  /** A chunk's finished lines first, and the lines of what then follows. */
  lemma ChunkFirst(c: Codec, cb: Callback, cl: Client, buffer: string, chunk: string, rest: string, eof: bool)
    ensures var t := TakeLines(buffer + chunk, false);
            RunLines(c, cb, cl, TakeLines(buffer + (chunk + rest), eof).lines)
            == RunLines(c, cb, RunLines(c, cb, cl, t.lines), TakeLines(t.rest + rest, eof).lines)
  {
    var t := TakeLines(buffer + chunk, false);
    assert buffer + (chunk + rest) == (buffer + chunk) + rest;
    TakeLinesAppend(buffer + chunk, rest, eof);
    RunLinesAppend(c, cb, cl, t.lines, TakeLines(t.rest + rest, eof).lines);
  }

  lemma NoChunks(c: Codec, cb: Callback, cl: Client, buffer: string, eof: bool)
    requires MustWait(buffer, false)
    ensures ReadChunks(c, cb, cl, buffer, [], eof) == RunLines(c, cb, cl, TakeLines(buffer, eof).lines)
  {
    StoppedOrNot(c, cb, cl, TakeLines(buffer, eof).lines);
    TakeUnfolds(buffer, false);
  }

  lemma StoppedOrNot(c: Codec, cb: Callback, cl: Client, lines: seq<string>)
    ensures cl.status != Running ==> RunLines(c, cb, cl, lines) == cl
  {
    if cl.status != Running {
      StoppedIgnoresLines(c, cb, cl, lines);
    }
  }

  lemma ReadChunksUnfolds(c: Codec, cb: Callback, cl: Client, buffer: string, chunks: seq<string>, eof: bool)
    requires cl.status == Running && chunks != []
    ensures var t := TakeLines(buffer + chunks[0], false);
            ReadChunks(c, cb, cl, buffer, chunks, eof)
            == ReadChunks(c, cb, RunLines(c, cb, cl, t.lines), t.rest, chunks[1..], eof)
  {
  }

  /** However a text is cut into chunks, the reader ends up as if it had been read at once. */
  lemma {:induction false} ChunksDoNotMatter(c: Codec, cb: Callback, cl: Client, buffer: string,
                                             chunks: seq<string>, eof: bool)
    requires MustWait(buffer, false)
    ensures ReadChunks(c, cb, cl, buffer, chunks, eof)
            == RunLines(c, cb, cl, TakeLines(buffer + Concat(chunks), eof).lines)
    decreases |chunks|
  {
    if cl.status != Running {
      StoppedIgnoresLines(c, cb, cl, TakeLines(buffer + Concat(chunks), eof).lines);
    } else if chunks == [] {
      assert buffer + "" == buffer;
      NoChunks(c, cb, cl, buffer, eof);
    } else {
      var chunk, rest := chunks[0], Concat(chunks[1..]);
      var t := TakeLines(buffer + chunk, false);
      ReadChunksUnfolds(c, cb, cl, buffer, chunks, eof);
      TakenRest(buffer + chunk);
      ChunksDoNotMatter(c, cb, RunLines(c, cb, cl, t.lines), t.rest, chunks[1..], eof);
      ChunkFirst(c, cb, cl, buffer, chunk, rest, eof);
    }
  }

  lemma ReadChunksStops(c: Codec, cb: Callback, cl: Client, buffer: string, chunks: seq<string>, eof: bool)
    ensures cl.status != Running ==> ReadChunks(c, cb, cl, buffer, chunks, eof) == cl
  {
  }

  lemma ReadAtOnce(c: Codec, cb: Callback, cl: Client, chunks: seq<string>, eof: bool)
    ensures ReadChunks(c, cb, cl, "", chunks, eof) == RunLines(c, cb, cl, TakeLines(Concat(chunks), eof).lines)
  {
    ChunksDoNotMatter(c, cb, cl, "", chunks, eof);
    assert "" + Concat(chunks) == Concat(chunks);
  }

  /** Whatever the chunks of a whole response, its reference lines are run. */
  lemma ChunksGiveReferenceLines(c: Codec, cb: Callback, cl: Client, chunks: seq<string>)
    ensures ReadChunks(c, cb, cl, "", chunks, true) == RunLines(c, cb, cl, Lines(Concat(chunks)))
  {
    ReadAtOnce(c, cb, cl, chunks, true);
    TakeLinesIsReference(Concat(chunks));
  }

  // ----- one response -----

  class ResponseReader {
    const codec: Codec
    const onEvent: Callback
    var buffer: string
    var frame: Frame
    var acceptedSequence: Option<nat>
    var handed: seq<ClientEvent>
    var status: Status

    ghost function View(): Client
      reads this
    {
      Client(handed, acceptedSequence, frame, status)
    }

    constructor (codec: Codec, onEvent: Callback, lastSequence: Option<nat>, handedBefore: seq<ClientEvent>)
      ensures View() == Client(handedBefore, lastSequence, EMPTY_FRAME, Running)
      ensures buffer == "" && this.codec == codec && this.onEvent == onEvent
    {
      this.codec, this.onEvent := codec, onEvent;
      buffer, frame, status := "", EMPTY_FRAME, Running;
      acceptedSequence, handed := lastSequence, handedBefore;
    }

    method DispatchFrame()
      requires status == Running
      modifies this
      ensures View() == StepLine(codec, onEvent, old(View()), "")
      ensures buffer == old(buffer)
    {
      var parsed := ParseAgentEvent(codec, frame);
      frame := EMPTY_FRAME;
      match parsed
      case Nothing => return;
      case Malformed => status := ProtocolFailed;
      case Event(e) =>
        if acceptedSequence.Some? && e.sequence <= acceptedSequence.value {
          return;
        }
        handed := handed + [e];
        if !onEvent(handed) {
          status := CallbackFailed;
          return;
        }
        acceptedSequence := Some(e.sequence);
        if e.kind in TERMINAL_TYPES {
          status := Terminal;
        }
    }

    method HandleLine(line: string)
      requires status == Running
      modifies this
      ensures View() == StepLine(codec, onEvent, old(View()), line)
      ensures buffer == old(buffer)
    {
      if line == "" {
        DispatchFrame();
      } else {
        frame := ProcessLine(frame, line);
      }
    }

    method ProcessBufferedLines(endOfStream: bool)
      requires status == Running
      modifies this
      ensures View() == RunLines(codec, onEvent, old(View()), TakeLines(old(buffer), endOfStream).lines)
      ensures status == Running ==> buffer == TakeLines(old(buffer), endOfStream).rest
    {
      ghost var rest := TakeLines(buffer, endOfStream).rest;
      ghost var whole := RunLines(codec, onEvent, View(), TakeLines(buffer, endOfStream).lines);
      var newline := FirstBreak(buffer);
      while newline != |buffer|
        invariant newline == FirstBreak(buffer) && status == Running
        invariant LeftToRun(codec, onEvent, View(), buffer, endOfStream, whole, rest)
        decreases |buffer|
      {
        if buffer[newline] == '\r' && newline == |buffer| - 1 && !endOfStream {
          TakeUnfolds(buffer, endOfStream);
          return;
        }
        var line, later := buffer[..newline], buffer[newline + BreakWidth(buffer, newline)..];
        assert !MustWait(buffer, endOfStream) && line == HeadLine(buffer) && later == AfterBreak(buffer);
        RunOne(codec, onEvent, View(), buffer, endOfStream, whole, rest);
        buffer := later;
        HandleLine(line);
        if status != Running {
          StoppedOrNot(codec, onEvent, View(), TakeLines(buffer, endOfStream).lines);
          return;
        }
        newline := FirstBreak(buffer);
      }
      TakeUnfolds(buffer, endOfStream);
    }

    method ReceiveChunk(chunk: string)
      requires status == Running
      modifies this
      ensures View() == RunLines(codec, onEvent, old(View()), TakeLines(old(buffer) + chunk, false).lines)
      ensures status == Running ==> buffer == TakeLines(old(buffer) + chunk, false).rest
    {
      buffer := buffer + chunk;
      ProcessBufferedLines(false);
    }

    /** Reads a whole response: any chunks, then an end of stream or a failed read. */
    method Consume(chunks: seq<string>, ending: Ending)
      requires status == Running && buffer == ""
      modifies this
      ensures View() == ReadChunks(codec, onEvent, old(View()), "", chunks, ending == EndOfStream)
      ensures View() == RunLines(codec, onEvent, old(View()), TakeLines(Concat(chunks), ending == EndOfStream).lines)
    {
      ghost var eof := ending == EndOfStream;
      ghost var start := View();
      ghost var whole := ReadChunks(codec, onEvent, start, "", chunks, eof);
      var i := 0;
      while i < |chunks| && status == Running
        invariant 0 <= i <= |chunks|
        invariant whole == ReadChunks(codec, onEvent, View(), buffer, chunks[i..], eof)
      {
        assert chunks[i..][1..] == chunks[i + 1..] && chunks[i..][0] == chunks[i];
        ReadChunksUnfolds(codec, onEvent, View(), buffer, chunks[i..], eof);
        ReceiveChunk(chunks[i]);
        ReadChunksStops(codec, onEvent, View(), buffer, chunks[i + 1..], eof);
        i := i + 1;
      }
      if status == Running && ending == EndOfStream {
        ProcessBufferedLines(true);
      }
      ReadAtOnce(codec, onEvent, start, chunks, eof);
    }
  }

  /** Running the lines that `buffer` still gives leads to `whole`, and leaves `rest`. */
  ghost predicate LeftToRun(c: Codec, cb: Callback, cl: Client, buffer: string, eof: bool, whole: Client,
                            rest: string) {
    RunLines(c, cb, cl, TakeLines(buffer, eof).lines) == whole && TakeLines(buffer, eof).rest == rest
  }

  lemma RunOne(c: Codec, cb: Callback, cl: Client, buffer: string, eof: bool, whole: Client, rest: string)
    requires !MustWait(buffer, eof) && LeftToRun(c, cb, cl, buffer, eof, whole, rest)
    ensures LeftToRun(c, cb, StepLine(c, cb, cl, HeadLine(buffer)), AfterBreak(buffer), eof, whole, rest)
  {
    TakeUnfolds(buffer, eof);
    RunLinesFirst(c, cb, cl, HeadLine(buffer), TakeLines(AfterBreak(buffer), eof).lines);
  }

  // ----- the reader as a parser followed by a filter -----

  function FrameAfter(frame: Frame, lines: seq<string>): Frame
    decreases |lines|
  {
    if lines == [] then frame
    else FrameAfter(if lines[0] == "" then EMPTY_FRAME else ProcessLine(frame, lines[0]), lines[1..])
  }

  /** One outcome for every frame that the lines close. */
  function ParseAll(c: Codec, frame: Frame, lines: seq<string>): seq<Parsed>
    decreases |lines|
  {
    if lines == [] then []
    else if lines[0] == "" then [ParseAgentEvent(c, frame)] + ParseAll(c, EMPTY_FRAME, lines[1..])
    else ParseAll(c, ProcessLine(frame, lines[0]), lines[1..])
  }

  function SinkAll(cb: Callback, cl: Client, ps: seq<Parsed>): Client
    decreases |ps|
  {
    if ps == [] then cl else SinkAll(cb, Sink(cb, cl, ps[0]), ps[1..])
  }

  lemma {:induction false} ParseAllAppend(c: Codec, frame: Frame, a: seq<string>, b: seq<string>)
    ensures ParseAll(c, frame, a + b) == ParseAll(c, frame, a) + ParseAll(c, FrameAfter(frame, a), b)
    decreases |a|
  {
    if a == [] {
      assert a + b == b;
    } else {
      assert (a + b)[1..] == a[1..] + b && (a + b)[0] == a[0];
      ParseAllAppend(c, if a[0] == "" then EMPTY_FRAME else ProcessLine(frame, a[0]), a[1..], b);
    }
  }

  ghost predicate SameProgress(a: Client, b: Client) {
    a.handed == b.handed && a.accepted == b.accepted && a.status == b.status
  }

  /** Reading lines is parsing them all and filtering what was parsed. */
  lemma {:induction false} ReadingIsParsingThenFiltering(c: Codec, cb: Callback, cl: Client, lines: seq<string>)
    ensures SameProgress(RunLines(c, cb, cl, lines), SinkAll(cb, cl, ParseAll(c, cl.frame, lines)))
    decreases |lines|
  {
    if cl.status != Running {
      StoppedIgnoresLines(c, cb, cl, lines);
      StoppedIgnoresEvents(cb, cl, ParseAll(c, cl.frame, lines));
    } else if lines != [] {
      var next := StepLine(c, cb, cl, lines[0]);
      ReadingIsParsingThenFiltering(c, cb, next, lines[1..]);
      if lines[0] == "" {
        var p := ParseAgentEvent(c, cl.frame);
        var later := ParseAll(c, EMPTY_FRAME, lines[1..]);
        assert ([p] + later)[1..] == later;
        FrameIsIrrelevant(cb, Sink(cb, cl, p), next, later);
      } else {
        FrameIsIrrelevant(cb, cl, next, ParseAll(c, next.frame, lines[1..]));
      }
    }
  }

  lemma {:induction false} FrameIsIrrelevant(cb: Callback, a: Client, b: Client, ps: seq<Parsed>)
    requires SameProgress(a, b)
    ensures SameProgress(SinkAll(cb, a, ps), SinkAll(cb, b, ps))
    decreases |ps|
  {
    if ps != [] {
      FrameIsIrrelevant(cb, Sink(cb, a, ps[0]), Sink(cb, b, ps[0]), ps[1..]);
    }
  }

  lemma {:induction false} StoppedIgnoresEvents(cb: Callback, cl: Client, ps: seq<Parsed>)
    requires cl.status != Running
    ensures SinkAll(cb, cl, ps) == cl
    decreases |ps|
  {
    if ps != [] {
      StoppedIgnoresEvents(cb, cl, ps[1..]);
    }
  }

  // ----- the reconnect loop -----

  datatype Response =
    | NetworkError
    | HttpError(code: nat)
    | NoBody
    | WrongContentType
    | Body(chunks: seq<string>, ending: Ending)

  /** The answer to the n-th request, given its Last-Event-ID header. */
  type Server = (nat, Option<nat>) -> Response

  datatype Outcome =
    | TerminalOutcome(lastEventId: nat)
    | Exhausted(lastId: Option<nat>)
    | HttpFailure(code: nat)
    | ProtocolFailure
    | CallbackFailure

  datatype Reading = Reading(outcome: Outcome, handed: seq<ClientEvent>)

  const DEFAULT_RECONNECTS: nat := 3

  datatype Attempts = Unspecified | NotFinite | Given(value: real)

  function NormalizeReconnectAttempts(a: Attempts): nat {
    match a
    case Unspecified => DEFAULT_RECONNECTS
    case NotFinite => 0
    case Given(r) => if r < 0.0 then 0 else r.Floor
  }

  lemma {:induction false} AcceptancePersists(c: Codec, cb: Callback, cl: Client, lines: seq<string>)
    requires cl.status == Terminal ==> cl.accepted.Some?
    ensures var r := RunLines(c, cb, cl, lines);
            && (r.status == Terminal ==> r.accepted.Some?)
            && (cl.accepted.Some? ==> r.accepted.Some?)
    decreases |lines|
  {
    if lines != [] {
      AcceptancePersists(c, cb, StepLine(c, cb, cl, lines[0]), lines[1..]);
    }
  }

  /** The reader after one response body. */
  function ReadBody(c: Codec, cb: Callback, last: Option<nat>, handed: seq<ClientEvent>,
                    chunks: seq<string>, ending: Ending): (cl: Client)
    ensures cl.status == Terminal ==> cl.accepted.Some?
    ensures last.Some? ==> cl.accepted.Some?
  {
    var start := Client(handed, last, EMPTY_FRAME, Running);
    var lines := TakeLines(Concat(chunks), ending == EndOfStream).lines;
    AcceptancePersists(c, cb, start, lines);
    RunLines(c, cb, start, lines)
  }

  /** What the stream comes to from its n-th reconnect on. */
  function StreamFrom(c: Codec, cb: Callback, server: Server, max: nat,
                      n: nat, last: Option<nat>, handed: seq<ClientEvent>): Reading
    requires n <= max
    decreases max - n
  {
    match server(n, last)
    case HttpError(code) =>
      if code < 500 then Reading(HttpFailure(code), handed)
      else Retry(c, cb, server, max, n, last, handed)
    case NoBody => Reading(ProtocolFailure, handed)
    case WrongContentType => Reading(ProtocolFailure, handed)
    case NetworkError => Retry(c, cb, server, max, n, last, handed)
    case Body(chunks, ending) =>
      var cl := ReadBody(c, cb, last, handed, chunks, ending);
      match cl.status
      case Terminal => Reading(TerminalOutcome(cl.accepted.value), cl.handed)
      case ProtocolFailed => Reading(ProtocolFailure, cl.handed)
      case CallbackFailed => Reading(CallbackFailure, cl.handed)
      case Running => Retry(c, cb, server, max, n, cl.accepted, cl.handed)
  }

  function Retry(c: Codec, cb: Callback, server: Server, max: nat,
                 n: nat, last: Option<nat>, handed: seq<ClientEvent>): Reading
    requires n <= max
    decreases max - n, 0
  {
    if n == max then Reading(Exhausted(last), handed)
    else StreamFrom(c, cb, server, max, n + 1, last, handed)
  }

  method ConsumeResponse(codec: Codec, onEvent: Callback, lastSequence: Option<nat>, handed: seq<ClientEvent>,
                         chunks: seq<string>, ending: Ending)
    returns (cl: Client)
    ensures cl == ReadBody(codec, onEvent, lastSequence, handed, chunks, ending)
  {
    var reader := new ResponseReader(codec, onEvent, lastSequence, handed);
    reader.Consume(chunks, ending);
    cl := Client(reader.handed, reader.acceptedSequence, reader.frame, reader.status);
  }

  method StreamAgentEvents(codec: Codec, onEvent: Callback, server: Server,
                           lastEventId: Option<nat>, maxReconnectAttempts: Attempts)
    returns (outcome: Outcome, handed: seq<ClientEvent>)
    ensures Reading(outcome, handed) ==
            StreamFrom(codec, onEvent, server, NormalizeReconnectAttempts(maxReconnectAttempts), 0, lastEventId, [])
  {
    var lastId, lastSequence := lastEventId, lastEventId;
    var reconnects: nat := 0;
    var max := NormalizeReconnectAttempts(maxReconnectAttempts);
    handed := [];
    ghost var whole := StreamFrom(codec, onEvent, server, max, 0, lastEventId, []);
    while true
      invariant reconnects <= max && lastId == lastSequence
      invariant whole == StreamFrom(codec, onEvent, server, max, reconnects, lastId, handed)
      decreases max - reconnects
    {
      match server(reconnects, lastId) {
        case HttpError(code) =>
          if code < 500 {
            return HttpFailure(code), handed;
          }
        case NoBody =>
          return ProtocolFailure, handed;
        case WrongContentType =>
          return ProtocolFailure, handed;
        case NetworkError =>
        case Body(chunks, ending) =>
          var cl := ConsumeResponse(codec, onEvent, lastSequence, handed, chunks, ending);
          lastSequence, handed := cl.accepted, cl.handed;
          if lastSequence != None {
            lastId := lastSequence;
          }
          match cl.status {
            case Terminal =>
              return TerminalOutcome(lastId.value), handed;
            case ProtocolFailed =>
              return ProtocolFailure, handed;
            case CallbackFailed =>
              return CallbackFailure, handed;
            case Running =>
          }
      }
      if reconnects >= max {
        return Exhausted(lastId), handed;
      }
      reconnects := reconnects + 1;
    }
  }
}
