/** Server-Sent Events: the printer of lib/sse.ts and the streaming parser of
    lib/eventsource.ts, over text that is already decoded. */
module Sse {
  import opened Common

  datatype Payload = Text(text: string) | Lines(lines: seq<string>)

  /** `retry` is absent when it is not a finite number. */
  datatype Event = Event(data: Payload, event: Option<string>, id: Option<string>, retry: Option<real>)

  datatype Item = Send(e: Event) | Comment(text: string)

  datatype Message = Message(kind: string, data: string, lastEventId: string)

  // ----- printing -----

  function Join(lines: seq<string>): string {
    if lines == [] then "" else if |lines| == 1 then lines[0] else lines[0] + "\n" + Join(lines[1..])
  }

  /** Position of the first `c`, or the length. */
  function IndexOf(s: string, c: char): (i: nat)
    ensures i <= |s|
  {
    if s == "" || s[0] == c then 0 else 1 + IndexOf(s[1..], c)
  }

  function DropCr(line: string): string {
    if line != "" && line[|line| - 1] == '\r' then line[..|line| - 1] else line
  }

  /** `split` at every LF, each taking a CR just before it along. */
  function Split(s: string): seq<string>
    decreases |s|
  {
    var i := IndexOf(s, '\n');
    if i == |s| then [s] else [DropCr(s[..i])] + Split(s[i + 1..])
  }

  function DataLines(p: Payload): seq<string> {
    match p case Text(s) => Split(s) case Lines(ls) => ls
  }

  function DigitChar(d: nat): char
    requires d < 10
  {
    ('0' as int + d) as char
  }

  function Decimal(n: nat): string {
    (if n < 10 then "" else Decimal(n / 10)) + [DigitChar(n % 10)]
  }

  function RetryMs(r: real): nat {
    if r.Floor < 0 then 0 else r.Floor
  }

  function Field(name: string, value: string): string {
    name + ": " + value
  }

  function Prefixed(name: string, lines: seq<string>): seq<string> {
    if lines == [] then [] else Prefixed(name, lines[..|lines| - 1]) + [Field(name, lines[|lines| - 1])]
  }

  function FieldLines(e: Event): seq<string> {
    (if e.event.Some? && e.event.value != "" then [Field("event", e.event.value)] else []) +
    (if e.id.Some? then [Field("id", e.id.value)] else []) +
    (if e.retry.Some? then [Field("retry", Decimal(RetryMs(e.retry.value)))] else [])
  }

  function EncodeEvent(e: Event): string {
    Join(FieldLines(e) + Prefixed("data", DataLines(e.data))) + "\n\n"
  }

  function EncodeComment(text: string): string {
    Join(Prefixed("", Split(text))) + "\n\n"
  }

  function Encode(item: Item): string {
    match item case Send(e) => EncodeEvent(e) case Comment(text) => EncodeComment(text)
  }

  function EncodeAll(items: seq<Item>): string {
    if items == [] then "" else Encode(items[0]) + EncodeAll(items[1..])
  }

  /** `encodeSseEvent`, line by line. */
  method PrintEvent(e: Event) returns (text: string)
    ensures text == EncodeEvent(e)
  {
    var lines: seq<string> := [];
    if e.event.Some? && e.event.value != "" {
      lines := lines + [Field("event", e.event.value)];
    }
    if e.id.Some? {
      lines := lines + [Field("id", e.id.value)];
    }
    if e.retry.Some? {
      lines := lines + [Field("retry", Decimal(RetryMs(e.retry.value)))];
    }
    assert lines == FieldLines(e);
    var data := DataLines(e.data);
    for i := 0 to |data|
      invariant lines == FieldLines(e) + Prefixed("data", data[..i])
    {
      assert data[..i + 1][..i] == data[..i];
      lines := lines + [Field("data", data[i])];
    }
    assert data[..|data|] == data;
    text := Join(lines) + "\n\n";
  }

  // ----- parsing -----

  /** The parser's fields, and the messages it has dispatched. */
  datatype Parser = Parser(event: string, data: seq<string>, lastEventId: string,
                           retryMs: nat, maxRetryMs: nat, out: seq<Message>)

  /** A parser and the start of a line that is not complete yet. */
  datatype Source = Source(parser: Parser, buffer: string)

  predicate StartsWith(s: string, c: char) {
    s != "" && s[0] == c
  }

  function Unspace(value: string): string {
    if StartsWith(value, ' ') then value[1..] else value
  }

  predicate IsDigit(c: char) { '0' <= c <= '9' }

  /** What JavaScript trims: white space and line terminators. */
  predicate IsSpace(c: char) {
    c in " \t\n\r\U{B}\U{C}\U{A0}\U{1680}\U{2028}\U{2029}\U{202F}\U{205F}\U{3000}\U{FEFF}" ||
    '\U{2000}' <= c <= '\U{200A}'
  }

  function TrimStart(s: string): string {
    if s != "" && IsSpace(s[0]) then TrimStart(s[1..]) else s
  }

  function DigitRun(s: string): (n: nat)
    ensures n <= |s| && forall i :: 0 <= i < n ==> IsDigit(s[i])
  {
    if s == "" || !IsDigit(s[0]) then 0 else 1 + DigitRun(s[1..])
  }

  function Value(digits: string): nat {
    if digits == "" then 0 else Value(digits[..|digits| - 1]) * 10 + Digit(digits[|digits| - 1])
  }

  function Digit(c: char): nat {
    if IsDigit(c) then c as int - '0' as int else 0
  }

  /** `Number.parseInt(value, 10)`: leading blanks, a sign, then the longest run of digits. */
  function ParseInt(value: string): Option<int> {
    ReadInt(TrimStart(value))
  }

  function ReadInt(s: string): Option<int> {
    var signed := StartsWith(s, '-') || StartsWith(s, '+');
    var digits := if signed then s[1..] else s;
    var n := DigitRun(digits);
    if n == 0 then None
    else
      var magnitude: int := Value(digits[..n]);
      Some(if StartsWith(s, '-') then -magnitude else magnitude)
  }

  function Dispatch(p: Parser): Parser {
    if p.data == [] then p.(event := "message")
    else p.(out := p.out + [Message(p.event, Join(p.data), p.lastEventId)], data := [], event := "message")
  }

  function SetField(p: Parser, field: string, value: string): Parser {
    if field == "event" then p.(event := if value == "" then "message" else value)
    else if field == "data" then p.(data := p.data + [value])
    else if field == "id" then (if '\0' in value then p else p.(lastEventId := value))
    else if field == "retry" then
      var r := ParseInt(value);
      if r.Some? && r.value >= 0 then p.(retryMs := Min(r.value, p.maxRetryMs)) else p
    else p
  }

  function ProcessLine(p: Parser, line: string): Parser {
    if line == "" then Dispatch(p)
    else if line[0] == ':' then p
    else
      var i := IndexOf(line, ':');
      if i < |line| then SetField(p, line[..i], Unspace(line[i + 1..])) else SetField(p, line, "")
  }

  /** The reference: every complete line in turn; what follows the last LF stays buffered. */
  function Consume(p: Parser, text: string): Source
    decreases |text|
  {
    var i := IndexOf(text, '\n');
    if i == |text| then Source(p, text)
    else Consume(ProcessLine(p, DropCr(text[..i])), text[i + 1..])
  }

  function Feed(s: Source, chunk: string): Source {
    Consume(s.parser, s.buffer + chunk)
  }

  function FeedAll(s: Source, chunks: seq<string>): Source
    decreases |chunks|
  {
    if chunks == [] then s else FeedAll(Feed(s, chunks[0]), chunks[1..])
  }

  function Flatten(chunks: seq<string>): string {
    if chunks == [] then "" else chunks[0] + Flatten(chunks[1..])
  }

  class EventSource {
    var buffer: string
    var currentEvent: string
    var currentData: seq<string>
    var lastEventId: string
    var retryMs: nat
    const maxRetryMs: nat
    var dispatched: seq<Message>

    function State(): Parser
      reads this
    {
      Parser(currentEvent, currentData, lastEventId, retryMs, maxRetryMs, dispatched)
    }

    constructor (initialRetryMs: nat, max: nat)
      ensures buffer == "" && State() == Parser("message", [], "", initialRetryMs, max, [])
    {
      buffer, currentEvent, currentData, lastEventId := "", "message", [], "";
      retryMs, maxRetryMs, dispatched := initialRetryMs, max, [];
    }

    method OnChunk(chunk: string)
      modifies this
      ensures Source(State(), buffer) == Feed(old(Source(State(), buffer)), chunk)
    {
      buffer := buffer + chunk;
      while true
        invariant Consume(State(), buffer) == Feed(old(Source(State(), buffer)), chunk)
        decreases |buffer|
      {
        var newline := IndexOf(buffer, '\n');
        if newline == |buffer| {
          break;
        }
        var line := DropCr(buffer[..newline]);
        buffer := buffer[newline + 1..];
        OnLine(line);
      }
    }

    method OnLine(line: string)
      modifies this
      ensures buffer == old(buffer) && State() == ProcessLine(old(State()), line)
    {
      if line == "" {
        DispatchMessage();
        return;
      }
      if line[0] == ':' {
        return;
      }
      var separator := IndexOf(line, ':');
      var field := if separator < |line| then line[..separator] else line;
      var value := if separator < |line| then Unspace(line[separator + 1..]) else "";
      match field {
        case "event" => currentEvent := if value == "" then "message" else value;
        case "data" => currentData := currentData + [value];
        case "id" =>
          if '\0' !in value {
            lastEventId := value;
          }
        case "retry" =>
          var retry := ParseInt(value);
          if retry.Some? && retry.value >= 0 {
            retryMs := Min(retry.value, maxRetryMs);
          }
        case _ =>
      }
    }

    method DispatchMessage()
      modifies this
      ensures buffer == old(buffer) && State() == Dispatch(old(State()))
    {
      if currentData == [] {
        currentEvent := "message";
        return;
      }
      dispatched := dispatched + [Message(currentEvent, Join(currentData), lastEventId)];
      currentData := [];
      currentEvent := "message";
    }
  }
}
