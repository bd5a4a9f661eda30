/** What the SSE printer writes, the parser reads back, however the text is cut. */
module SseRoundTrip {
  import opened Common
  import opened Sse

  // ----- cutting the text into chunks does not matter -----

  /** `IndexOf` finds the first occurrence. */
  lemma {:induction false} IndexIs(s: string, i: nat, c: char)
    requires i < |s| && s[i] == c && c !in s[..i]
    ensures IndexOf(s, c) == i
  {
    if i > 0 {
      assert s[0] in s[..i] && s[1..][..i - 1] == s[..i][1..];
      IndexIs(s[1..], i - 1, c);
    }
  }

  lemma {:induction false} IndexOfFinds(s: string, c: char)
    ensures IndexOf(s, c) < |s| ==> s[IndexOf(s, c)] == c
    ensures c !in s[..IndexOf(s, c)]
  {
    if s != "" && s[0] != c {
      IndexOfFinds(s[1..], c);
      var i := IndexOf(s, c);
      assert s[..i] == [s[0]] + s[1..][..i - 1];
    }
  }

  lemma FirstLineConcat(a: string, b: string)
    requires IndexOf(a, '\n') < |a|
    ensures var i := IndexOf(a, '\n');
            IndexOf(a + b, '\n') == i && (a + b)[..i] == a[..i] && (a + b)[i + 1..] == a[i + 1..] + b
  {
    var i := IndexOf(a, '\n');
    IndexOfFinds(a, '\n');
    assert (a + b)[..i] == a[..i];
    IndexIs(a + b, i, '\n');
  }

  lemma {:induction false} ConsumeConcat(p: Parser, a: string, b: string)
    ensures Consume(p, a + b) == Feed(Consume(p, a), b)
    decreases |a|
  {
    var i := IndexOf(a, '\n');
    if i < |a| {
      FirstLineConcat(a, b);
      var q, rest := ProcessLine(p, DropCr(a[..i])), a[i + 1..];
      assert Consume(p, a) == Consume(q, rest);
      assert Consume(p, a + b) == Consume(q, rest + b);
      ConsumeConcat(q, rest, b);
    }
  }

  lemma NoLine(text: string)
    requires IndexOf(text, '\n') == |text|
    ensures '\n' !in text
  {
    IndexOfFinds(text, '\n');
    assert text[..|text|] == text;
  }

  lemma {:induction false} ConsumeBuffersNoLine(p: Parser, text: string)
    ensures '\n' !in Consume(p, text).buffer
    decreases |text|
  {
    var i := IndexOf(text, '\n');
    if i == |text| {
      NoLine(text);
    } else {
      var q, rest := ProcessLine(p, DropCr(text[..i])), text[i + 1..];
      assert Consume(p, text) == Consume(q, rest);
      ConsumeBuffersNoLine(q, rest);
    }
  }

  /** Feeding chunks one by one is feeding their concatenation. */
  lemma {:induction false} ChunksDoNotMatter(s: Source, chunks: seq<string>)
    requires '\n' !in s.buffer
    ensures FeedAll(s, chunks) == Feed(s, Flatten(chunks))
    decreases |chunks|
  {
    if chunks == [] {
      assert s.buffer + "" == s.buffer;
      IndexOfFinds(s.buffer, '\n');
    } else {
      ConsumeBuffersNoLine(s.parser, s.buffer + chunks[0]);
      ChunksDoNotMatter(Feed(s, chunks[0]), chunks[1..]);
      ConsumeConcat(s.parser, s.buffer + chunks[0], Flatten(chunks[1..]));
      Assoc(s.buffer, chunks[0], Flatten(chunks[1..]));
    }
  }

  // ----- lines -----

  /** A line that comes back whole: no LF inside and no CR at its end. */
  predicate LineOk(s: string) {
    '\n' !in s && DropCr(s) == s
  }

  /** No line feed in any of the lines. */
  predicate Clean(lines: seq<string>) {
    lines == [] || ('\n' !in lines[0] && Clean(lines[1..]))
  }

  lemma {:induction false} CleanConcat(a: seq<string>, b: seq<string>)
    ensures Clean(a + b) <==> Clean(a) && Clean(b)
  {
    if a == [] {
      assert a + b == b;
    } else {
      CleanConcat(a[1..], b);
      assert (a + b)[1..] == a[1..] + b;
    }
  }

  function ProcessAll(p: Parser, lines: seq<string>): Parser {
    if lines == [] then p
    else ProcessLine(ProcessAll(p, lines[..|lines| - 1]), DropCr(lines[|lines| - 1]))
  }

  lemma {:induction false} ProcessConcat(p: Parser, a: seq<string>, b: seq<string>)
    ensures ProcessAll(p, a + b) == ProcessAll(ProcessAll(p, a), b)
  {
    if b == [] {
      assert a + b == a;
    } else {
      ProcessConcat(p, a, b[..|b| - 1]);
      assert (a + b)[..|a + b| - 1] == a + b[..|b| - 1];
    }
  }

  lemma ConsumeLine(p: Parser, line: string, rest: string)
    requires '\n' !in line
    ensures Consume(p, line + "\n" + rest) == Consume(ProcessLine(p, DropCr(line)), rest)
  {
    var text := line + "\n" + rest;
    assert text[..|line|] == line && text[|line| + 1..] == rest;
    IndexIs(text, |line|, '\n');
  }

  lemma {:induction false} ConsumeJoined(p: Parser, lines: seq<string>, rest: string)
    requires lines != [] && Clean(lines)
    ensures Consume(p, Join(lines) + "\n" + rest) == Consume(ProcessAll(p, lines), rest)
    decreases |lines|
  {
    var head, tail := lines[0], lines[1..];
    assert ProcessAll(p, [head]) == ProcessLine(p, DropCr(head)) by { assert [head][..0] == []; }
    if tail == [] {
      assert lines == [head];
      ConsumeLine(p, head, rest);
    } else {
      assert Join(lines) + "\n" + rest == head + "\n" + (Join(tail) + "\n" + rest);
      ConsumeLine(p, head, Join(tail) + "\n" + rest);
      ConsumeJoined(ProcessLine(p, DropCr(head)), tail, rest);
      assert lines == [head] + tail;
      ProcessConcat(p, [head], tail);
    }
  }

  /** One printed frame: its lines, then the blank line that dispatches. */
  lemma ConsumeFrame(p: Parser, lines: seq<string>, rest: string)
    requires Clean(lines)
    ensures lines != [] ==> Consume(p, Join(lines) + "\n\n" + rest) == Consume(Dispatch(ProcessAll(p, lines)), rest)
    ensures lines == [] ==> Consume(p, Join(lines) + "\n\n" + rest) == Consume(Dispatch(Dispatch(p)), rest)
  {
    assert "\n" + rest == "" + "\n" + rest;
    if lines == [] {
      assert Join(lines) + "\n\n" + rest == "" + "\n" + ("" + "\n" + rest);
      ConsumeLine(p, "", "" + "\n" + rest);
      ConsumeLine(Dispatch(p), "", rest);
    } else {
      assert Join(lines) + "\n\n" + rest == Join(lines) + "\n" + ("" + "\n" + rest);
      ConsumeJoined(p, lines, "" + "\n" + rest);
      ConsumeLine(ProcessAll(p, lines), "", rest);
    }
  }

  // ----- fields -----

  lemma FieldValue(p: Parser, name: string, value: string)
    requires name != "" && ':' !in name
    ensures ProcessLine(p, Field(name, value)) == SetField(p, name, value)
  {
    var line := Field(name, value);
    assert line[..|name|] == name && line[|name| + 1..] == " " + value;
    IndexIs(line, |name|, ':');
    assert line[0] == name[0] && name[0] in name;
    assert (" " + value)[1..] == value;
  }

  lemma DropCrField(name: string, value: string)
    ensures DropCr(Field(name, value)) == Field(name, DropCr(value))
    ensures '\n' !in name && '\n' !in value ==> '\n' !in Field(name, value)
  {
    var line := Field(name, value);
    if value == "" {
      assert line[|line| - 1] == ' ';
    } else {
      assert line[|line| - 1] == value[|value| - 1];
      assert line[..|line| - 1] == Field(name, value[..|value| - 1]);
    }
  }

  lemma FieldLine(p: Parser, name: string, value: string)
    requires name != "" && ':' !in name && '\n' !in name && LineOk(value)
    ensures ProcessLine(p, DropCr(Field(name, value))) == SetField(p, name, value)
    ensures '\n' !in Field(name, value)
  {
    DropCrField(name, value);
    FieldValue(p, name, value);
  }

  /** Every line survives. */
  predicate Whole(lines: seq<string>) {
    lines == [] || (Whole(lines[..|lines| - 1]) && LineOk(lines[|lines| - 1]))
  }

  lemma {:induction false} WholeMeans(lines: seq<string>)
    ensures Whole(lines) <==> forall i :: 0 <= i < |lines| ==> LineOk(lines[i])
  {
    if lines != [] {
      WholeMeans(lines[..|lines| - 1]);
    }
  }

  lemma {:induction false} DataFields(p: Parser, lines: seq<string>)
    requires Whole(lines)
    ensures ProcessAll(p, Prefixed("data", lines)) == p.(data := p.data + lines)
  {
    if lines == [] {
      assert p.data + lines == p.data;
    } else {
      var n := |lines| - 1;
      var q := p.(data := p.data + lines[..n]);
      DataFields(p, lines[..n]);
      DataLine(q, lines[n]);
      ProcessPush(p, Prefixed("data", lines[..n]), Field("data", lines[n]));
      assert lines == lines[..n] + [lines[n]];
      Assoc(p.data, lines[..n], [lines[n]]);
    }
  }

  lemma DataLine(p: Parser, line: string)
    requires LineOk(line)
    ensures ProcessLine(p, DropCr(Field("data", line))) == p.(data := p.data + [line])
  {
    FieldLine(p, "data", line);
  }

  lemma ProcessPush(p: Parser, front: seq<string>, line: string)
    ensures ProcessAll(p, front + [line]) == ProcessLine(ProcessAll(p, front), DropCr(line))
  {
    assert (front + [line])[..|front|] == front;
  }

  lemma {:induction false} PrefixedIsClean(name: string, lines: seq<string>)
    requires '\n' !in name && Clean(lines)
    ensures Clean(Prefixed(name, lines))
  {
    if lines != [] {
      var n := |lines| - 1;
      assert lines == lines[..n] + [lines[n]];
      CleanConcat(lines[..n], [lines[n]]);
      PrefixedIsClean(name, lines[..n]);
      DropCrField(name, lines[n]);
      CleanConcat(Prefixed(name, lines[..n]), [Field(name, lines[n])]);
    }
  }

  lemma {:induction false} CommentLines(p: Parser, lines: seq<string>)
    ensures ProcessAll(p, Prefixed("", lines)) == p
  {
    if lines != [] {
      var n := |lines| - 1;
      CommentLines(p, lines[..n]);
      ProcessPush(p, Prefixed("", lines[..n]), Field("", lines[n]));
      DropCrField("", lines[n]);
      assert Field("", DropCr(lines[n]))[0] == ':';
    }
  }

  lemma {:induction false} SplitIsClean(s: string)
    ensures Split(s) != [] && Clean(Split(s))
    decreases |s|
  {
    var i := IndexOf(s, '\n');
    IndexOfFinds(s, '\n');
    if i == |s| {
      assert s[..i] == s;
    } else {
      SplitIsClean(s[i + 1..]);
      assert Split(s)[1..] == Split(s[i + 1..]);
    }
  }

  /** Text without CR is split into lines that survive, and joining them restores it. */
  lemma {:induction false} SplitRoundTrip(s: string)
    requires '\r' !in s
    ensures Join(Split(s)) == s
    ensures forall i :: 0 <= i < |Split(s)| ==> LineOk(Split(s)[i])
    decreases |s|
  {
    var i := IndexOf(s, '\n');
    IndexOfFinds(s, '\n');
    if i == |s| {
      assert s[..i] == s;
    } else {
      var rest := s[i + 1..];
      SplitRoundTrip(rest);
      SplitIsClean(rest);
      assert DropCr(s[..i]) == s[..i];
      assert ([s[..i]] + Split(rest))[1..] == Split(rest);
      assert s == s[..i] + "\n" + rest;
    }
  }

  // ----- retry -----

  lemma DigitRoundTrip(d: nat)
    requires d < 10
    ensures IsDigit(DigitChar(d)) && Digit(DigitChar(d)) == d
  {
  }

  ghost predicate Digits(s: string) {
    forall i :: 0 <= i < |s| ==> IsDigit(s[i])
  }

  lemma {:induction false} DecimalRoundTrip(n: nat)
    ensures Decimal(n) != "" && Value(Decimal(n)) == n && Digits(Decimal(n))
  {
    var front := if n < 10 then "" else Decimal(n / 10);
    var last := DigitChar(n % 10);
    if n >= 10 {
      DecimalRoundTrip(n / 10);
    }
    DigitRoundTrip(n % 10);
    assert (front + [last])[..|front|] == front;
  }

  lemma {:induction false} AllDigits(s: string)
    requires Digits(s)
    ensures DigitRun(s) == |s| && LineOk(s)
  {
    if s != "" {
      AllDigits(s[1..]);
    }
  }

  lemma ParsePrinted(n: nat)
    ensures ParseInt(Decimal(n)) == Some(n) && LineOk(Decimal(n))
  {
    DecimalRoundTrip(n);
    AllDigits(Decimal(n));
    ParseDigits(Decimal(n));
  }

  lemma ParseDigits(s: string)
    requires s != "" && Digits(s) && DigitRun(s) == |s|
    ensures ParseInt(s) == Some(Value(s))
  {
    assert IsDigit(s[0]) && !IsSpace(s[0]);
    assert s[..|s|] == s;
  }

  // ----- the round trip -----

  /** What the promise asks of an event: lines that survive, and no NUL in the id. */
  ghost predicate EventOk(e: Event) {
    && (e.event.Some? ==> LineOk(e.event.value))
    && (e.id.Some? ==> LineOk(e.id.value) && '\0' !in e.id.value)
    && (forall i :: 0 <= i < |DataLines(e.data)| ==> LineOk(DataLines(e.data)[i]))
  }

  ghost predicate ItemOk(item: Item) {
    item.Send? ==> EventOk(item.e)
  }

  /** Between frames: nothing half-built. */
  predicate Idle(p: Parser) {
    p.event == "message" && p.data == []
  }

  function Kind(e: Event): string {
    if e.event.Some? && e.event.value != "" then e.event.value else "message"
  }

  /** The reference reader: it is handed the items themselves. */
  function Receive(p: Parser, item: Item): Parser {
    if item.Comment? then p
    else
      var e := item.e;
      var id := if e.id.Some? then e.id.value else p.lastEventId;
      p.(lastEventId := id,
         retryMs := if e.retry.Some? then Min(RetryMs(e.retry.value), p.maxRetryMs) else p.retryMs,
         out := if DataLines(e.data) == [] then p.out
                else p.out + [Message(Kind(e), Join(DataLines(e.data)), id)])
  }

  function ReceiveAll(p: Parser, items: seq<Item>): Parser
    decreases |items|
  {
    if items == [] then p else ReceiveAll(Receive(p, items[0]), items[1..])
  }

  /** One optional field. */
  function Optional(name: string, value: Option<string>): seq<string> {
    if value.Some? then [Field(name, value.value)] else []
  }

  lemma OptionalField(p: Parser, name: string, value: Option<string>)
    requires name != "" && ':' !in name && '\n' !in name && (value.Some? ==> LineOk(value.value))
    ensures ProcessAll(p, Optional(name, value)) == if value.Some? then SetField(p, name, value.value) else p
    ensures Clean(Optional(name, value))
  {
    if value.Some? {
      FieldLine(p, name, value.value);
      ProcessPush(p, [], Field(name, value.value));
      assert [] + [Field(name, value.value)] == Optional(name, value);
    }
  }

  function Printed(retry: Option<real>): Option<string> {
    if retry.Some? then Some(Decimal(RetryMs(retry.value))) else None
  }

  function Named(e: Event): Option<string> {
    if e.event.Some? && e.event.value != "" then e.event else None
  }

  lemma FieldLinesAre(e: Event)
    ensures FieldLines(e) == Optional("event", Named(e)) + Optional("id", e.id) + Optional("retry", Printed(e.retry))
  {
  }

  lemma RetryField(p: Parser, retry: Option<real>)
    ensures ProcessAll(p, Optional("retry", Printed(retry))) ==
            p.(retryMs := if retry.Some? then Min(RetryMs(retry.value), p.maxRetryMs) else p.retryMs)
    ensures Clean(Optional("retry", Printed(retry)))
  {
    if retry.Some? {
      ParsePrinted(RetryMs(retry.value));
    }
    OptionalField(p, "retry", Printed(retry));
  }

  /** The parser after the lines before the data: type, id and retry interval are set. */
  function WithFields(p: Parser, e: Event): Parser {
    p.(event := Kind(e), lastEventId := if e.id.Some? then e.id.value else p.lastEventId,
       retryMs := if e.retry.Some? then Min(RetryMs(e.retry.value), p.maxRetryMs) else p.retryMs)
  }

  lemma KindAndId(p: Parser, e: Event)
    requires Idle(p) && EventOk(e)
    ensures var lines := Optional("event", Named(e)) + Optional("id", e.id);
      && ProcessAll(p, lines) == p.(event := Kind(e), lastEventId := if e.id.Some? then e.id.value else p.lastEventId)
      && Clean(lines)
  {
    var a, b := Optional("event", Named(e)), Optional("id", e.id);
    ProcessConcat(p, a, b);
    OptionalField(p, "event", Named(e));
    OptionalField(ProcessAll(p, a), "id", e.id);
    CleanConcat(a, b);
  }

  lemma Fields(p: Parser, e: Event)
    requires Idle(p) && EventOk(e)
    ensures ProcessAll(p, FieldLines(e)) == WithFields(p, e)
    ensures Clean(FieldLines(e))
  {
    var lines, c := Optional("event", Named(e)) + Optional("id", e.id), Optional("retry", Printed(e.retry));
    FieldLinesAre(e);
    KindAndId(p, e);
    ProcessConcat(p, lines, c);
    RetryField(ProcessAll(p, lines), e.retry);
    CleanConcat(lines, c);
  }

  lemma {:induction false} LinesAreClean(lines: seq<string>)
    requires forall i :: 0 <= i < |lines| ==> LineOk(lines[i])
    ensures Clean(lines)
  {
    if lines != [] {
      LinesAreClean(lines[1..]);
    }
  }

  lemma EventFrame(p: Parser, e: Event, rest: string)
    requires Idle(p) && EventOk(e)
    ensures Consume(p, EncodeEvent(e) + rest) == Consume(Receive(p, Send(e)), rest)
  {
    var fields, data := FieldLines(e), Prefixed("data", DataLines(e.data));
    Fields(p, e);
    WholeMeans(DataLines(e.data));
    DataFields(WithFields(p, e), DataLines(e.data));
    LinesAreClean(DataLines(e.data));
    PrefixedIsClean("data", DataLines(e.data));
    CleanConcat(fields, data);
    ProcessConcat(p, fields, data);
    ConsumeFrame(p, fields + data, rest);
    FrameEffect(p, e);
  }

  lemma FrameEffect(p: Parser, e: Event)
    requires Idle(p)
    ensures Dispatch(WithFields(p, e).(data := p.data + DataLines(e.data))) == Receive(p, Send(e))
    ensures FieldLines(e) + Prefixed("data", DataLines(e.data)) == [] ==> Dispatch(Dispatch(p)) == Receive(p, Send(e))
  {
    assert p.data + DataLines(e.data) == DataLines(e.data);
  }

  lemma ItemFrame(p: Parser, item: Item, rest: string)
    requires Idle(p) && ItemOk(item)
    ensures Consume(p, Encode(item) + rest) == Consume(Receive(p, item), rest)
    ensures Idle(Receive(p, item))
  {
    match item {
      case Send(e) => EventFrame(p, e, rest);
      case Comment(text) =>
        SplitIsClean(text);
        CommentLines(p, Split(text));
        PrefixedIsClean("", Split(text));
        ConsumeFrame(p, Prefixed("", Split(text)), rest);
    }
  }

  lemma {:induction false} FramesRoundTrip(p: Parser, items: seq<Item>)
    requires Idle(p) && forall i :: 0 <= i < |items| ==> ItemOk(items[i])
    ensures Consume(p, EncodeAll(items)) == Source(ReceiveAll(p, items), "")
    decreases |items|
  {
    if items != [] {
      ItemFrame(p, items[0], EncodeAll(items[1..]));
      FramesRoundTrip(Receive(p, items[0]), items[1..]);
    }
  }

  /** Whatever events and comments are printed, and however the text is cut into chunks, the
      parser ends up exactly where a reader handed the items would: same messages with the
      same types, data and last ids, same id and retry interval kept, comments invisible,
      nothing left over. */
  lemma RoundTrip(p: Parser, items: seq<Item>, chunks: seq<string>)
    requires Idle(p) && (forall i :: 0 <= i < |items| ==> ItemOk(items[i])) && Flatten(chunks) == EncodeAll(items)
    ensures FeedAll(Source(p, ""), chunks) == Source(ReceiveAll(p, items), "")
  {
    ChunksDoNotMatter(Source(p, ""), chunks);
    assert "" + Flatten(chunks) == Flatten(chunks);
    FramesRoundTrip(p, items);
  }

  lemma LineDataHasNoLf(p: Parser, line: string)
    requires '\n' !in line && forall i :: 0 <= i < |p.data| ==> '\n' !in p.data[i]
    ensures var q := ProcessLine(p, DropCr(line)); forall i :: 0 <= i < |q.data| ==> '\n' !in q.data[i]
  {
  }

  /** Nothing the parser takes from the text ever contains a line feed. */
  lemma {:induction false} DataHasNoLf(p: Parser, text: string)
    requires forall i :: 0 <= i < |p.data| ==> '\n' !in p.data[i]
    ensures forall i :: 0 <= i < |Consume(p, text).parser.data| ==> '\n' !in Consume(p, text).parser.data[i]
    decreases |text|
  {
    var i := IndexOf(text, '\n');
    if i < |text| {
      IndexOfFinds(text, '\n');
      LineDataHasNoLf(p, text[..i]);
      DataHasNoLf(ProcessLine(p, DropCr(text[..i])), text[i + 1..]);
    }
  }

  /** The condition on lines is exact: a printed data line comes back if and only if it holds. */
  lemma LineSurvives(p: Parser, line: string)
    requires Idle(p)
    ensures Consume(p, Field("data", line) + "\n").parser.data == [line] <==> LineOk(line)
  {
    var text := Field("data", line) + "\n";
    if '\n' in line {
      DataHasNoLf(p, text);
      assert [line][0] == line;
    } else {
      DropCrField("data", line);
      assert text == text + "";
      ConsumeLine(p, Field("data", line), "");
      FieldValue(p, "data", DropCr(line));
      assert [DropCr(line)][0] == DropCr(line) && [line][0] == line;
    }
  }
}
