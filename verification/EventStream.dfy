/** The server-sent event reader of the web client: it splits a text stream that arrives in
    arbitrary chunks into lines and dispatches an event at every blank line. */
module EventStream {

  datatype Event = Event(name: string, payload: string)

  /** The variables of the read loop and what it has dispatched so far. */
  datatype Reader = Reader(buffer: string, name: string, data: seq<string>, dispatched: seq<Event>)

  const START := Reader("", "", [], [])

  // ---- lines ----

  /** Where the first line feed is, or the length of the text when there is none. */
  function FirstBreak(s: string): (i: nat)
    ensures i <= |s|
    ensures i < |s| ==> s[i] == '\n'
    ensures forall j :: 0 <= j < i ==> s[j] != '\n'
  {
    if s == "" || s[0] == '\n' then 0 else 1 + FirstBreak(s[1..])
  }

  /** A line break is a line feed together with one carriage return before it, if there is one. */
  function WithoutReturn(line: string): string {
    if line != "" && line[|line| - 1] == '\r' then line[..|line| - 1] else line
  }

  /** All complete lines of a text. */
  function Lines(s: string): seq<string>
    decreases |s|
  {
    var i := FirstBreak(s);
    if i == |s| then [] else [WithoutReturn(s[..i])] + Lines(s[i + 1..])
  }

  /** What follows the last line break. */
  function Remainder(s: string): string
    decreases |s|
  {
    var i := FirstBreak(s);
    if i == |s| then s else Remainder(s[i + 1..])
  }

  // ---- one line ----

  predicate IsSpace(c: char) {
    c == ' ' || c == '\t' || c == '\n' || c == '\r'
  }

  function TrimLeft(s: string): string {
    if s != "" && IsSpace(s[0]) then TrimLeft(s[1..]) else s
  }

  function TrimRight(s: string): string {
    if s != "" && IsSpace(s[|s| - 1]) then TrimRight(s[..|s| - 1]) else s
  }

  function Trim(s: string): string {
    TrimRight(TrimLeft(s))
  }

  function Join(lines: seq<string>): string {
    if lines == [] then "" else if |lines| == 1 then lines[0] else Join(lines[..|lines| - 1]) + "\n" + lines[|lines| - 1]
  }

  predicate StartsWith(s: string, prefix: string) {
    prefix <= s
  }

  /** What one complete line does. */
  function ReadLine(r: Reader, line: string): Reader {
    if line == "" then
      r.(name := "", data := [],
         dispatched := r.dispatched + [Event(if r.name == "" then "message" else r.name, Join(r.data))])
    else if StartsWith(line, ":") then r
    else if StartsWith(line, "event:") then r.(name := Trim(line[6..]))
    else if StartsWith(line, "data:") then r.(data := r.data + [Trim(line[5..])])
    else r
  }

  function ReadLines(r: Reader, lines: seq<string>): Reader
    decreases |lines|
  {
    if lines == [] then r else ReadLine(ReadLines(r, lines[..|lines| - 1]), lines[|lines| - 1])
  }

  /** What one chunk does. */
  function Feed(r: Reader, chunk: string): Reader {
    var text := r.buffer + chunk;
    ReadLines(r, Lines(text)).(buffer := Remainder(text))
  }

  // ---- the loop ----

  /** Splits off the complete lines and returns them with what is left over. */
  method Split(text: string) returns (lines: seq<string>, rest: string)
    ensures lines == Lines(text) && rest == Remainder(text)
  {
    hide Lines, Remainder, WithoutReturn;
    lines := [];
    var from := 0;
    var i := 0;
    assert text[0..] == text;
    while i < |text|
      invariant 0 <= from <= i <= |text|
      invariant forall j :: from <= j < i ==> text[j] != '\n'
      invariant lines + Lines(text[from..]) == Lines(text)
      invariant Remainder(text[from..]) == Remainder(text)
    {
      if text[i] == '\n' {
        BreakWithin(text, from, i);
        lines := lines + [WithoutReturn(text[from..i])];
        from := i + 1;
      }
      i := i + 1;
    }
    NoBreak(text[from..]);
    rest := text[from..];
  }

  lemma BreakWithin(text: string, from: nat, i: nat)
    requires from <= i < |text| && text[i] == '\n' && forall j :: from <= j < i ==> text[j] != '\n'
    ensures Lines(text[from..]) == [WithoutReturn(text[from..i])] + Lines(text[i + 1..])
    ensures Remainder(text[from..]) == Remainder(text[i + 1..])
  {
    hide Lines, Remainder, WithoutReturn;
    var s := text[from..];
    BreakAt(s, i - from);
    assert s[..i - from] == text[from..i] && s[i - from + 1..] == text[i + 1..];
  }

  lemma BreakAt(s: string, i: nat)
    requires i < |s| && s[i] == '\n' && forall j :: 0 <= j < i ==> s[j] != '\n'
    ensures Lines(s) == [WithoutReturn(s[..i])] + Lines(s[i + 1..]) && Remainder(s) == Remainder(s[i + 1..])
  {
  }

  lemma NoBreak(s: string)
    requires '\n' !in s
    ensures Lines(s) == [] && Remainder(s) == s
  {
  }

  class Stream {
    var buffer: string
    var name: string
    var data: seq<string>
    var dispatched: seq<Event>

    ghost function Contents(): Reader
      reads this
    {
      Reader(buffer, name, data, dispatched)
    }

    constructor ()
      ensures Contents() == START
    {
      buffer, name, data, dispatched := "", "", [], [];
    }

    method Receive(chunk: string)
      modifies this
      ensures Contents() == Feed(old(Contents()), chunk)
    {
      var lines, rest := Split(buffer + chunk);
      ghost var before := Contents();
      buffer := rest;
      for i := 0 to |lines|
        invariant Contents() == ReadLines(before, lines[..i]).(buffer := rest)
      {
        assert lines[..i + 1][..i] == lines[..i];
        BufferUnused(before, lines[..i], rest);
        var line := lines[i];
        if line == "" {
          dispatched := dispatched + [Event(if name == "" then "message" else name, Join(data))];
          name, data := "", [];
        } else if StartsWith(line, ":") {
        } else if StartsWith(line, "event:") {
          name := Trim(line[6..]);
        } else if StartsWith(line, "data:") {
          data := data + [Trim(line[5..])];
        }
      }
      assert lines[..|lines|] == lines;
    }
  }

  /** Reading lines does not look at the buffer. */
  lemma {:induction false} BufferUnused(r: Reader, lines: seq<string>, buffer: string)
    ensures ReadLines(r.(buffer := buffer), lines) == ReadLines(r, lines).(buffer := buffer)
  {
    if lines != [] {
      BufferUnused(r, lines[..|lines| - 1], buffer);
    }
  }

  // ---- chunking ----

  /** Cutting a text in two, anywhere, even inside a line break. */
  lemma {:induction false} LinesOfParts(a: string, b: string)
    ensures Lines(a + b) == Lines(a) + Lines(Remainder(a) + b)
    ensures Remainder(a + b) == Remainder(Remainder(a) + b)
    decreases |a|
  {
    hide Lines, Remainder, WithoutReturn;
    var i := FirstBreak(a);
    if i < |a| {
      BreakAt(a, i);
      BreakAt(a + b, i);
      assert (a + b)[..i] == a[..i] && (a + b)[i + 1..] == a[i + 1..] + b;
      LinesOfParts(a[i + 1..], b);
    } else {
      NoBreak(a);
    }
  }

  lemma {:induction false} ReadLinesInTwo(r: Reader, a: seq<string>, b: seq<string>)
    ensures ReadLines(r, a + b) == ReadLines(ReadLines(r, a), b)
    decreases |b|
  {
    if b == [] {
      assert a + b == a;
    } else {
      assert (a + b)[..|a + b| - 1] == a + b[..|b| - 1];
      ReadLinesInTwo(r, a, b[..|b| - 1]);
    }
  }

  lemma FeedInTwo(r: Reader, a: string, b: string)
    ensures Feed(Feed(r, a), b) == Feed(r, a + b)
  {
    hide Lines, Remainder, ReadLines;
    var text := r.buffer + a;
    assert r.buffer + (a + b) == text + b;
    LinesOfParts(text, b);
    var lines, rest := Lines(text), Remainder(text);
    ReadLinesInTwo(r, lines, Lines(rest + b));
    BufferUnused(ReadLines(r, lines), Lines(rest + b), rest);
  }

  function FeedAll(r: Reader, chunks: seq<string>): Reader {
    if chunks == [] then r else Feed(FeedAll(r, chunks[..|chunks| - 1]), chunks[|chunks| - 1])
  }

  function Concat(chunks: seq<string>): string {
    if chunks == [] then "" else Concat(chunks[..|chunks| - 1]) + chunks[|chunks| - 1]
  }

  /** However a stream is cut into chunks, the reader ends where one pass over the whole text
      ends: the same events in the same order, and the same unfinished event and line. */
  lemma {:induction false} ChunksDoNotMatter(chunks: seq<string>)
    ensures FeedAll(START, chunks) == Feed(START, Concat(chunks))
  {
    if chunks == [] {
      NoBreak("");
    } else {
      ChunksDoNotMatter(chunks[..|chunks| - 1]);
      FeedInTwo(START, Concat(chunks[..|chunks| - 1]), chunks[|chunks| - 1]);
    }
  }

  // ---- the payload ----

  function TotalLength(lines: seq<string>): nat {
    if lines == [] then 0 else TotalLength(lines[..|lines| - 1]) + |lines[|lines| - 1]|
  }

  /** A text that can be one data line: no line feed in it, no carriage return at its end. */
  predicate OneLiner(s: string) {
    '\n' !in s && (s != "" ==> s[|s| - 1] != '\r')
  }

  /** The payload splits into just these data lines, with one line feed between two of them. */
  predicate IsPayload(data: seq<string>, payload: string) {
    if data == [] then payload == "" else Lines(payload + "\n") == data && |payload| == TotalLength(data) + |data| - 1
  }

  lemma {:induction false} JoinIsPayload(data: seq<string>)
    requires forall i :: 0 <= i < |data| ==> OneLiner(data[i])
    ensures IsPayload(data, Join(data))
  {
    hide Lines;
    if |data| == 1 {
      OneLine(data[0], "\n");
      assert TotalLength(data[..0]) == 0;
    } else if |data| > 1 {
      var front, last := data[..|data| - 1], data[|data| - 1];
      JoinIsPayload(front);
      assert Join(data) == Join(front) + "\n" + last;
      hide Join;
      OneMoreLine(Join(front), last);
      assert data == front + [last];
    }
  }

  lemma OneMoreLine(s: string, last: string)
    requires OneLiner(last)
    ensures Lines(s + "\n" + last + "\n") == Lines(s + "\n") + [last]
  {
    hide Lines, Remainder;
    var a, b := s + "\n", last + "\n";
    OneLine(last, "\n");
    RemainderAfterBreak(s);
    LinesOfParts(a, b);
    assert s + "\n" + last + "\n" == a + b && "" + b == b;
  }

  lemma {:induction false} RemainderAfterBreak(s: string)
    ensures Remainder(s + "\n") == ""
  {
    hide Lines, Remainder;
    var i := FirstBreak(s);
    if i < |s| {
      BreakAt(s + "\n", i);
      assert (s + "\n")[i + 1..] == s[i + 1..] + "\n";
      RemainderAfterBreak(s[i + 1..]);
    } else {
      BreakAt(s + "\n", i);
      assert (s + "\n")[i + 1..] == "";
      NoBreak("");
    }
  }

  // ---- trimming ----

  predicate AllOf(s: string, chars: set<char>) {
    forall i :: 0 <= i < |s| ==> s[i] in chars
  }

  /** Text without white space at either end. */
  predicate Bare(s: string) {
    s != "" ==> s[0] !in {' ', '\t', '\r', '\n'} && s[|s| - 1] !in {' ', '\t', '\r', '\n'}
  }

  lemma {:induction false} TrimLeftPadding(left: string, s: string)
    requires AllOf(left, {' ', '\t', '\r', '\n'})
    ensures TrimLeft(left + s) == TrimLeft(s)
  {
    if left == "" {
      assert left + s == s;
    } else {
      assert (left + s)[1..] == left[1..] + s;
      TrimLeftPadding(left[1..], s);
    }
  }

  lemma {:induction false} TrimRightPadding(s: string, right: string)
    requires AllOf(right, {' ', '\t', '\r', '\n'})
    ensures TrimRight(s + right) == TrimRight(s)
  {
    if right == "" {
      assert s + right == s;
    } else {
      assert (s + right)[..|s + right| - 1] == s + right[..|right| - 1];
      TrimRightPadding(s, right[..|right| - 1]);
    }
  }

  lemma {:induction false} TrimAllPadding(s: string)
    requires AllOf(s, {' ', '\t', '\r', '\n'})
    ensures Trim(s) == ""
  {
    assert s + "" == s;
    TrimLeftPadding(s, "");
  }

  /** Trimming takes exactly the blanks, tabs and line breaks at both ends away. */
  lemma TrimPadded(left: string, s: string, right: string)
    requires AllOf(left, {' ', '\t', '\r', '\n'}) && AllOf(right, {' ', '\t', '\r', '\n'}) && Bare(s)
    ensures Trim(left + s + right) == s
  {
    if s == "" {
      assert left + s + right == left + right;
      TrimAllPadding(left + right);
    } else {
      assert left + s + right == left + (s + right);
      TrimLeftPadding(left, s + right);
      assert TrimLeft(s + right) == s + right;
      TrimRightPadding(s, right);
    }
  }

  // ---- what was sent is what is dispatched ----

  /** One line of an event as a server may write it. */
  datatype Field =
    | NameField(left: string, text: string, right: string)
    | DataField(left: string, text: string, right: string)
    | Comment(text: string)
    | OtherField(text: string)

  type Sent = seq<Field>

  function LineOf(f: Field): string {
    match f
    case NameField(left, text, right) => "event:" + (left + text + right)
    case DataField(left, text, right) => "data:" + (left + text + right)
    case Comment(text) => ":" + text
    case OtherField(text) => text
  }

  /** Fields are padded with blanks and tabs; other lines have another field name or none at all. */
  predicate ProperField(f: Field) {
    match f
    case NameField(left, text, right) => AllOf(left, {' ', '\t'}) && AllOf(right, {' ', '\t'}) && Bare(text) && '\n' !in text
    case DataField(left, text, right) => AllOf(left, {' ', '\t'}) && AllOf(right, {' ', '\t'}) && Bare(text) && '\n' !in text
    case Comment(text) => OneLiner(text)
    case OtherField(text) => OneLiner(text) && text != "" && !(":" <= text) && !("event:" <= text) && !("data:" <= text)
  }

  predicate Proper(e: Sent) {
    forall i :: 0 <= i < |e| ==> ProperField(e[i])
  }

  /** The last name given, or none. */
  function NameOf(e: Sent): string {
    if e == [] then ""
    else
      var last := e[|e| - 1];
      if last.NameField? then last.text else NameOf(e[..|e| - 1])
  }

  function DataOf(e: Sent): seq<string> {
    if e == [] then []
    else
      var front, last := DataOf(e[..|e| - 1]), e[|e| - 1];
      if last.DataField? then front + [last.text] else front
  }

  function FieldsText(e: Sent, end: string): string {
    if e == [] then "" else FieldsText(e[..|e| - 1], end) + LineOf(e[|e| - 1]) + end
  }

  function Text(e: Sent, end: string): string {
    FieldsText(e, end) + end
  }

  function AllText(es: seq<Sent>, end: string): string {
    if es == [] then "" else AllText(es[..|es| - 1], end) + Text(es[|es| - 1], end)
  }

  /** The event is the one sent: its name or the default, and a payload of its data lines. */
  predicate Delivers(e: Sent, got: Event) {
    got.name == (if NameOf(e) == "" then "message" else NameOf(e)) && IsPayload(DataOf(e), got.payload)
  }

  /** A whole line with its end, between lines. */
  lemma FeedLine(r: Reader, line: string, end: string)
    requires r.buffer == "" && OneLiner(line) && (end == "\n" || end == "\r\n")
    ensures Feed(r, line + end) == ReadLine(r, line)
  {
    hide Lines, Remainder, ReadLine;
    var text := line + end;
    assert r.buffer + text == text;
    OneLine(line, end);
    assert [line][..0] == [];
    assert ReadLines(r, []) == r;
    assert ReadLines(r, [line]) == ReadLine(r, line);
    KeepsBuffer(r, line);
  }

  lemma KeepsBuffer(r: Reader, line: string)
    ensures ReadLine(r, line).buffer == r.buffer
  {
  }

  lemma OneLine(line: string, end: string)
    requires OneLiner(line) && (end == "\n" || end == "\r\n")
    ensures Lines(line + end) == [line] && Remainder(line + end) == ""
  {
    hide Lines, Remainder;
    var text, i := line + end, |line + end| - 1;
    BreakAt(text, i);
    assert text[i + 1..] == "";
    NoBreak("");
    if end == "\n" {
      assert text[..i] == line;
    } else {
      assert text[..i] == line + "\r" && (line + "\r")[..|line|] == line;
    }
  }

  /** What the reader keeps of one field. */
  function Noted(r: Reader, f: Field): Reader {
    match f
    case NameField(_, text, _) => r.(name := text)
    case DataField(_, text, _) => r.(data := r.data + [text])
    case _ => r
  }

  lemma PaddedIsOneLiner(before: string, left: string, text: string, right: string)
    requires OneLiner(before) && AllOf(left, {' ', '\t'}) && AllOf(right, {' ', '\t'}) && Bare(text) && '\n' !in text
    ensures OneLiner(before + (left + text + right))
  {
  }

  lemma NameRead(r: Reader, left: string, text: string, right: string)
    requires AllOf(left, {' ', '\t'}) && AllOf(right, {' ', '\t'}) && Bare(text)
    ensures ReadLine(r, "event:" + (left + text + right)) == r.(name := text)
  {
    hide Trim, AllOf, Bare;
    var line := "event:" + (left + text + right);
    assert line[..6] == "event:" && line[6..] == left + text + right && line[0] == 'e';
    Padding(left);
    Padding(right);
    TrimPadded(left, text, right);
  }

  lemma DataRead(r: Reader, left: string, text: string, right: string)
    requires AllOf(left, {' ', '\t'}) && AllOf(right, {' ', '\t'}) && Bare(text)
    ensures ReadLine(r, "data:" + (left + text + right)) == r.(data := r.data + [text])
  {
    hide Trim, AllOf, Bare;
    var line := "data:" + (left + text + right);
    assert line[..5] == "data:" && line[5..] == left + text + right && line[0] == 'd';
    Padding(left);
    Padding(right);
    TrimPadded(left, text, right);
  }

  lemma Padding(s: string)
    requires AllOf(s, {' ', '\t'})
    ensures AllOf(s, {' ', '\t', '\r', '\n'})
  {
  }

  lemma FieldRead(r: Reader, f: Field)
    requires ProperField(f)
    ensures OneLiner(LineOf(f)) && ReadLine(r, LineOf(f)) == Noted(r, f)
  {
    hide Trim, AllOf, Bare, ReadLine;
    match f
    case NameField(left, text, right) =>
      PaddedIsOneLiner("event:", left, text, right);
      NameRead(r, left, text, right);
    case DataField(left, text, right) =>
      PaddedIsOneLiner("data:", left, text, right);
      DataRead(r, left, text, right);
    case Comment(text) => CommentRead(r, text);
    case OtherField(text) => OtherRead(r, text);
  }

  lemma CommentRead(r: Reader, text: string)
    requires OneLiner(text)
    ensures OneLiner(":" + text) && ReadLine(r, ":" + text) == r
  {
    assert (":" + text)[..1] == ":";
  }

  lemma OtherRead(r: Reader, text: string)
    requires text != "" && !("event:" <= text) && !("data:" <= text)
    ensures ReadLine(r, text) == r
  {
  }

  lemma {:induction false} FeedFields(r: Reader, e: Sent, end: string)
    requires r.buffer == "" && r.name == "" && r.data == [] && (end == "\n" || end == "\r\n") && Proper(e)
    ensures Feed(r, FieldsText(e, end)) == r.(name := NameOf(e), data := DataOf(e))
  {
    hide Feed, ReadLine, ProperField, LineOf;
    if e == [] {
      FeedNothing(r);
    } else {
      var front, last := e[..|e| - 1], e[|e| - 1];
      FeedFields(r, front, end);
      var read := r.(name := NameOf(front), data := DataOf(front));
      assert FieldsText(e, end) == FieldsText(front, end) + (LineOf(last) + end);
      FeedInTwo(r, FieldsText(front, end), LineOf(last) + end);
      FieldRead(read, last);
      FeedLine(read, LineOf(last), end);
    }
  }

  lemma {:induction false} DataIsOneLiners(e: Sent)
    requires Proper(e)
    ensures forall i :: 0 <= i < |DataOf(e)| ==> OneLiner(DataOf(e)[i])
  {
    if e != [] {
      DataIsOneLiners(e[..|e| - 1]);
    }
  }

  lemma FeedEvent(r: Reader, e: Sent, end: string)
    requires r.buffer == "" && r.name == "" && r.data == [] && (end == "\n" || end == "\r\n") && Proper(e)
    ensures var d := Feed(r, Text(e, end)).dispatched;
            && |d| == |r.dispatched| + 1 && Feed(r, Text(e, end)) == r.(dispatched := r.dispatched + [d[|r.dispatched|]])
            && Delivers(e, d[|r.dispatched|])
  {
    hide Feed, Proper, IsPayload, Join;
    FeedFields(r, e, end);
    FeedInTwo(r, FieldsText(e, end), end);
    var read := r.(name := NameOf(e), data := DataOf(e));
    assert "" + end == end;
    FeedLine(read, "", end);
    DataIsOneLiners(e);
    JoinIsPayload(DataOf(e));
  }

  lemma {:induction false} FeedEvents(es: seq<Sent>, end: string)
    requires (end == "\n" || end == "\r\n") && forall i :: 0 <= i < |es| ==> Proper(es[i])
    ensures var d := Feed(START, AllText(es, end)).dispatched;
            && Feed(START, AllText(es, end)) == START.(dispatched := d)
            && |d| == |es| && forall i :: 0 <= i < |es| ==> Delivers(es[i], d[i])
  {
    hide Feed, Text, Delivers, Proper;
    if es == [] {
      FeedNothing(START);
    } else {
      var front := es[..|es| - 1];
      FeedEvents(front, end);
      FeedInTwo(START, AllText(front, end), Text(es[|es| - 1], end));
      FeedEvent(Feed(START, AllText(front, end)), es[|es| - 1], end);
    }
  }

  lemma FeedNothing(r: Reader)
    requires r.buffer == ""
    ensures Feed(r, "") == r
  {
  }

  /** Round trip: events written with either line ending, with padding, comments and other fields in any
      place, and cut into any chunks are dispatched one for one and in order, each under the last name
      given (or the default) and with a payload that splits into its data lines. */
  lemma EventsRoundTrip(es: seq<Sent>, end: string, chunks: seq<string>)
    requires (end == "\n" || end == "\r\n") && forall i :: 0 <= i < |es| ==> Proper(es[i])
    requires Concat(chunks) == AllText(es, end)
    ensures var d := FeedAll(START, chunks).dispatched;
            |d| == |es| && forall i :: 0 <= i < |es| ==> Delivers(es[i], d[i])
  {
    ChunksDoNotMatter(chunks);
    FeedEvents(es, end);
  }
}
