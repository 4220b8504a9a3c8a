/**
 Agent events as JSON objects, the frames that carry them, and the client's frame parser.
 JSON text itself is a parameter: a `Codec` that is assumed to be faithful.
 */
module AgentEvents {
  import opened Results
  import opened SseLines

  /** What a number in JSON text is read as: a double, whole or not, or too large for one. */
  datatype Number = Whole(i: int) | Fraction(x: real) | Infinite

  datatype Json =
    | Null
    | Boolean(b: bool)
    | Numeric(n: Number)
    | Text(s: string)
    | List(items: seq<Json>)
    | Record(fields: map<string, Json>)

  const MAX_SAFE_INTEGER: int := 0x1F_FFFF_FFFF_FFFF

  function PowerOfTwo(k: int): real
    decreases if k < 0 then -k else k
  {
    if k == 0 then 1.0 else if k > 0 then 2.0 * PowerOfTwo(k - 1) else PowerOfTwo(k + 1) / 2.0
  }

  predicate Scaled(x: real, m: int, k: int) {
    -MAX_SAFE_INTEGER <= m <= MAX_SAFE_INTEGER && -1074 <= k <= 971 && x == m as real * PowerOfTwo(k)
  }

  ghost predicate IsDouble(x: real) {
    exists m, k :: Scaled(x, m, k)
  }

  lemma SafeIsDouble(n: int)
    requires -MAX_SAFE_INTEGER <= n <= MAX_SAFE_INTEGER
    ensures IsDouble(n as real)
  {
    assert Scaled(n as real, n, 0);
  }

  /** The values that JSON text can hold: every number in it is a double, written in one way. */
  ghost predicate Finite(v: Json) {
    match v
    case Numeric(Whole(i)) => IsDouble(i as real)
    case Numeric(Fraction(x)) => IsDouble(x) && x != x.Floor as real
    case Numeric(Infinite) => false
    case List(items) => forall x | x in items :: Finite(x)
    case Record(fields) => forall k | k in fields :: Finite(fields[k])
    case _ => true
  }

  datatype Codec = Codec(parse: string -> Option<Json>, stringify: Json -> string)

  /** Parsing undoes printing, and printed text is a single line. */
  ghost predicate Faithful(c: Codec) {
    forall v: Json | Finite(v) :: c.parse(c.stringify(v)) == Some(v) && Unbroken(c.stringify(v))
  }

  const EVENT_TYPES: seq<string> := [
    "run.created", "run.started", "agent.step", "agent.plan", "file.changed",
    "validation.started", "validation.step", "validation.failed", "validation.passed",
    "repair.started", "run.completed", "run.failed", "run.cancelled"]

  const TERMINAL_TYPES: seq<string> := ["run.completed", "run.failed", "run.cancelled"]

  // ----- decimal numerals -----

  predicate IsDigit(c: char) {
    '0' <= c <= '9'
  }

  predicate IsNumeral(s: string) {
    s != "" && forall i | 0 <= i < |s| :: IsDigit(s[i])
  }

  function DigitChar(d: nat): (c: char)
    requires d < 10
    ensures IsDigit(c)
  {
    (d as char) + '0'
  }

  function Numeral(n: nat): (s: string)
    ensures IsNumeral(s)
  {
    if n < 10 then [DigitChar(n)] else Numeral(n / 10) + [DigitChar(n % 10)]
  }

  function NumeralValue(s: string): nat
    requires IsNumeral(s)
  {
    var last := (s[|s| - 1] - '0') as nat;
    if |s| == 1 then last else 10 * NumeralValue(s[..|s| - 1]) + last
  }

  lemma {:induction false} NumeralRoundTrip(n: nat)
    ensures NumeralValue(Numeral(n)) == n
  {
    if n >= 10 {
      var s := Numeral(n);
      assert s[..|s| - 1] == Numeral(n / 10);
      NumeralRoundTrip(n / 10);
    }
  }

  // ----- the server's side: events and their frames -----

  predicate IsText(fields: map<string, Json>, key: string) {
    key in fields && fields[key].Text?
  }

  predicate IsCount(fields: map<string, Json>, key: string) {
    key in fields && fields[key].Numeric? && fields[key].n.Whole? && fields[key].n.i >= 0
  }

  predicate IsPublicAgentEvent(v: Json, runId: string) {
    && v.Record?
    && IsText(v.fields, "id")
    && "runId" in v.fields && v.fields["runId"] == Text(runId)
    && IsCount(v.fields, "sequence")
    && IsText(v.fields, "type") && v.fields["type"].s in EVENT_TYPES
    && IsText(v.fields, "message")
    && IsText(v.fields, "createdAt")
  }

  /** A JSON object with the fields every printed event has. */
  predicate IsEvent(v: Json) {
    && v.Record?
    && IsCount(v.fields, "sequence")
    && IsText(v.fields, "type") && v.fields["type"].s in EVENT_TYPES
    && IsText(v.fields, "message")
  }

  function Sequence(v: Json): nat
    requires IsEvent(v)
  {
    v.fields["sequence"].n.i
  }

  function Kind(v: Json): string
    requires IsEvent(v)
  {
    v.fields["type"].s
  }

  predicate PayloadAcceptable(v: Json)
    requires IsEvent(v)
  {
    "payload" in v.fields ==> v.fields["payload"].Record?
  }

  /** An event as the server holds it: the object, with the two fields it reads. */
  datatype AgentEvent = AgentEvent(sequence: nat, kind: string, json: Json)

  function AsEvent(v: Json): AgentEvent
    requires IsEvent(v)
  {
    AgentEvent(Sequence(v), Kind(v), v)
  }

  /** An event that JSON can carry, with a sequence that JavaScript counts exactly. */
  ghost predicate Genuine(e: AgentEvent) {
    IsEvent(e.json) && Finite(e.json) && e == AsEvent(e.json) && e.sequence <= MAX_SAFE_INTEGER
  }

  function ToSseFrame(c: Codec, e: AgentEvent): string {
    "id: " + Numeral(e.sequence) + "\nevent: " + e.kind + "\ndata: " + c.stringify(e.json) + "\n\n"
  }

  // ----- the client's side: fields, frames and their parser -----

  datatype ClientEvent = ClientEvent(
    sequence: nat, kind: string, message: string, payload: Option<map<string, Json>>)

  function ToClientEvent(v: Json): ClientEvent
    requires IsEvent(v) && PayloadAcceptable(v)
  {
    ClientEvent(Sequence(v), Kind(v), v.fields["message"].s,
                if "payload" in v.fields then Some(v.fields["payload"].fields) else None)
  }

  datatype Frame = Frame(id: Option<string>, event: Option<string>, data: seq<string>)

  const EMPTY_FRAME := Frame(None, None, [])

  /** The position of `x` in `s`, or the length of `s` when it is not there. */
  function IndexOf(s: string, x: char): (k: nat)
    ensures k <= |s| && x !in s[..k]
    ensures k < |s| ==> s[k] == x
  {
    if s == "" || s[0] == x then 0 else 1 + IndexOf(s[1..], x)
  }

  function ProcessLine(frame: Frame, line: string): Frame {
    if line != "" && line[0] == ':' then frame
    else
      var k := IndexOf(line, ':');
      var raw := if k == |line| then "" else line[k + 1..];
      var value := if raw != "" && raw[0] == ' ' then raw[1..] else raw;
      match line[..k]
      case "id" => frame.(id := Some(value))
      case "event" => frame.(event := Some(value))
      case "data" => frame.(data := frame.data + [value])
      case _ => frame
  }

  function Join(parts: seq<string>): string {
    if parts == [] then "" else if |parts| == 1 then parts[0] else parts[0] + "\n" + Join(parts[1..])
  }

  datatype Parsed = Nothing | Malformed | Event(event: ClientEvent)

  function ParseAgentEvent(c: Codec, frame: Frame): Parsed {
    if frame.data == [] then Nothing
    else
      match c.parse(Join(frame.data))
      case None => Malformed
      case Some(v) =>
        if !IsEvent(v) || !PayloadAcceptable(v) then Malformed
        else if frame.event != None && frame.event != Some(Kind(v)) then Malformed
        else if frame.id == None || !IsNumeral(frame.id.value)
                || NumeralValue(frame.id.value) != Sequence(v) then Malformed
        else Event(ToClientEvent(v))
  }

  // ----- one printed frame, parsed -----

  function IdLine(e: AgentEvent): string {
    "id: " + Numeral(e.sequence)
  }

  function EventLine(e: AgentEvent): string {
    "event: " + e.kind
  }

  function DataLine(c: Codec, e: AgentEvent): string {
    "data: " + c.stringify(e.json)
  }

  lemma {:induction false} IndexOfFirst(name: string, rest: string)
    requires ':' !in name
    ensures IndexOf(name + ":" + rest, ':') == |name|
  {
    var line := name + ":" + rest;
    if name != "" {
      assert line[0] == name[0];
      assert line[1..] == name[1..] + ":" + rest;
      IndexOfFirst(name[1..], rest);
    }
  }

  lemma FieldLine(frame: Frame, name: string, value: string)
    requires name in ["id", "event", "data"]
    ensures var line := name + ": " + value;
            ProcessLine(frame, line) ==
            if name == "id" then frame.(id := Some(value))
            else if name == "event" then frame.(event := Some(value))
            else frame.(data := frame.data + [value])
  {
    var line := name + ": " + value;
    assert line == name + ":" + (" " + value);
    IndexOfFirst(name, " " + value);
    assert line[..|name|] == name;
    assert line[|name| + 1..] == " " + value;
    assert (" " + value)[1..] == value;
  }

  /** The frame the three lines of an event leave behind parses back to that event. */
  lemma FrameParses(c: Codec, e: AgentEvent)
    requires Faithful(c) && Genuine(e)
    ensures var f := ProcessLine(ProcessLine(ProcessLine(EMPTY_FRAME, IdLine(e)), EventLine(e)), DataLine(c, e));
            ParseAgentEvent(c, f) ==
            if PayloadAcceptable(e.json) then Event(ToClientEvent(e.json)) else Malformed
  {
    var v := e.json;
    FieldLine(EMPTY_FRAME, "id", Numeral(e.sequence));
    var f1 := ProcessLine(EMPTY_FRAME, IdLine(e));
    FieldLine(f1, "event", e.kind);
    var f2 := ProcessLine(f1, EventLine(e));
    FieldLine(f2, "data", c.stringify(v));
    NumeralRoundTrip(e.sequence);
    assert "id" + ": " == "id: " && "event" + ": " == "event: " && "data" + ": " == "data: ";
    assert ProcessLine(f2, DataLine(c, e)) == Frame(Some(Numeral(e.sequence)), Some(e.kind), [c.stringify(v)]);
    assert c.parse(c.stringify(v)) == Some(v);
    assert Join([c.stringify(v)]) == c.stringify(v);
  }

  predicate IsKindChar(c: char) {
    'a' <= c <= 'z' || c == '.'
  }

  lemma KindsAreUnbroken(kind: string)
    requires kind in EVENT_TYPES
    ensures Unbroken(kind)
  {
    assert forall i | 0 <= i < |kind| :: IsKindChar(kind[i]);
  }
}
