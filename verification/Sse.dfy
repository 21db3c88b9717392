/** The server-sent-event reader of the Anthropic adapter (internal/provider/anthropic/chat.go).
    It trims field values and delivers a pending event at the end of the stream, unlike
    section 9.2.6 of the WHATWG HTML standard. */
module Sse {
  import opened Wrappers
  import opened Text

  datatype SseEvent = SseEvent(name: string, data: string)

  /** The fields collected since the last event. */
  datatype Partial = Partial(name: string, data: seq<string>)

  const NOTHING := Partial("", [])

  /** What one read returns: an event and the unread rest, io.EOF, or another read error. */
  datatype ReadResult = Event(event: SseEvent, rest: string) | EndOfStream | Broken

  // ---- Line handling ----

  function BuildEvent(p: Partial): Option<SseEvent> {
    if p == NOTHING then None else Some(SseEvent(p.name, Join(p.data, "\n")))
  }

  function ConsumeLine(line: string, p: Partial): Partial {
    if ":" <= line then p
    else if "event:" <= line then p.(name := Trim(line[6..]))
    else if "data:" <= line then p.(data := p.data + [Trim(line[5..])])
    else p
  }

  /** The position of the first line feed from i on, or the length of s. */
  function NewlineFrom(s: string, i: nat): (n: nat)
    requires i <= |s|
    ensures i <= n <= |s|
    ensures forall j :: i <= j < n ==> s[j] != '\n'
    ensures n < |s| ==> s[n] == '\n'
    decreases |s| - i
  {
    if i == |s| || s[i] == '\n' then i else NewlineFrom(s, i + 1)
  }

  predicate IsEol(c: char) {
    c == '\n' || c == '\r'
  }

  function ContentEnd(s: string, n: nat): (m: nat)
    requires n <= |s|
    ensures m <= n
    ensures forall j :: m <= j < n ==> IsEol(s[j])
    ensures m > 0 ==> !IsEol(s[m - 1])
  {
    if n > 0 && IsEol(s[n - 1]) then ContentEnd(s, n - 1) else n
  }

  /** strings.TrimRight(s, "\r\n"). */
  function TrimEol(s: string): string {
    s[..ContentEnd(s, |s|)]
  }

  // ---- The reader ----

  /** One call of readSSEEvent on text s, with p already collected. */
  function ReadEvent(s: string, p: Partial, broken: bool): (r: ReadResult)
    ensures r.Event? ==> |r.rest| < |s| || (s == "" == r.rest && p != NOTHING)
    decreases |s|
  {
    var n := NewlineFrom(s, 0);
    if n == |s| then
      if broken then Broken
      else
        match BuildEvent(ConsumeLine(TrimEol(s), p))
        case Some(event) => Event(event, "")
        case None => EndOfStream
    else
      var line, rest := TrimEol(s[..n + 1]), s[n + 1..];
      if line == "" then
        match BuildEvent(p)
        case Some(event) => Event(event, rest)
        case None => ReadEvent(rest, p, broken)
      else ReadEvent(rest, ConsumeLine(line, p), broken)
  }

  /** The response body: text that ends in io.EOF or in another error. */
  class SseReader {
    var unread: string
    const broken: bool

    constructor (body: string, broken: bool)
      ensures unread == body && this.broken == broken
    {
      unread := body;
      this.broken := broken;
    }

    method ReadSSEEvent() returns (r: ReadResult)
      modifies this
      ensures r == ReadEvent(old(unread), NOTHING, broken)
      ensures unread == if r.Event? then r.rest else ""
    {
      hide ConsumeLine, Trim, TrimEol, BuildEvent;
      var eventName := "";
      var dataLines: seq<string> := [];
      while true
        invariant ReadEvent(old(unread), NOTHING, broken) == ReadEvent(unread, Partial(eventName, dataLines), broken)
        decreases |unread|
      {
        var p := Partial(eventName, dataLines);
        var n := NewlineFrom(unread, 0);
        if n == |unread| {
          var line := TrimEol(unread);
          unread := "";
          if broken {
            return Broken;
          }
          var built := BuildEvent(ConsumeLine(line, p));
          return if built.Some? then Event(built.value, "") else EndOfStream;
        }
        var line := TrimEol(unread[..n + 1]);
        unread := unread[n + 1..];
        if line == "" {
          var built := BuildEvent(p);
          if built.Some? {
            return Event(built.value, unread);
          }
        } else {
          var q := ConsumeLine(line, p);
          eventName, dataLines := q.name, q.data;
        }
      }
    }
  }

  /** What reading until the end or an error delivers. */
  function AllEvents(s: string, p: Partial, broken: bool): seq<SseEvent>
    decreases |s|, if p == NOTHING then 0 else 1
  {
    match ReadEvent(s, p, broken)
    case Event(event, rest) => [event] + AllEvents(rest, NOTHING, broken)
    case _ => []
  }

  // ---- What a stream means, line by line ----

  datatype Line = Blank | Comment(text: string) | EventLine(text: string) | DataLine(text: string) | Other(text: string)

  datatype Ending = Lf | CrLf

  datatype Written = Written(line: Line, ending: Ending)

  predicate NoEol(s: string) {
    forall i :: 0 <= i < |s| ==> !IsEol(s[i])
  }

  predicate Proper(line: Line) {
    match line
    case Blank => true
    case Other(text) =>
      NoEol(text) && text != "" && !(":" <= text) && !("event:" <= text) && !("data:" <= text)
    case _ => NoEol(line.text)
  }

  function Content(line: Line): string {
    match line
    case Blank => ""
    case Comment(text) => ":" + text
    case EventLine(text) => "event:" + text
    case DataLine(text) => "data:" + text
    case Other(text) => text
  }

  function Eol(ending: Ending): string {
    if ending == Lf then "\n" else "\r\n"
  }

  function Print(lines: seq<Written>): string {
    if lines == [] then ""
    else Content(lines[0].line) + Eol(lines[0].ending) + Print(lines[1..])
  }

  function Lines(ws: seq<Written>): (lines: seq<Line>)
    ensures |lines| == |ws|
  {
    if ws == [] then [] else [ws[0].line] + Lines(ws[1..])
  }

  function Step(line: Line, p: Partial): Partial {
    match line
    case EventLine(text) => p.(name := Trim(text))
    case DataLine(text) => p.(data := p.data + [Trim(text)])
    case _ => p
  }

  /** The events of a list of lines: a blank line ends an event that has begun, and so does the
      end of the stream when flush holds. */
  function Denote(lines: seq<Line>, p: Partial, flush: bool): seq<SseEvent> {
    if lines == [] then
      if flush && p != NOTHING then [SseEvent(p.name, Join(p.data, "\n"))] else []
    else if lines[0] == Blank && p != NOTHING then
      [SseEvent(p.name, Join(p.data, "\n"))] + Denote(lines[1..], NOTHING, flush)
    else Denote(lines[1..], Step(lines[0], p), flush)
  }

  // ---- The reader computes that meaning ----

  lemma ContentOf(line: Line, p: Partial)
    requires Proper(line)
    ensures NoEol(Content(line))
    ensures ConsumeLine(Content(line), p) == Step(line, p)
    ensures Content(line) == "" <==> line == Blank
  {
    hide Trim;
    match line
    case Blank =>
    case Comment(text) => assert (":" + text)[0] == ':';
    case EventLine(text) =>
      assert ("event:" + text)[0] == 'e';
      assert ("event:" + text)[6..] == text;
    case DataLine(text) =>
      assert ("data:" + text)[0] == 'd';
      assert ("data:" + text)[5..] == text;
    case Other(text) =>
  }

  lemma {:induction false} ContentEndAt(s: string, n: nat, m: nat)
    requires m <= n <= |s|
    requires forall j :: m <= j < n ==> IsEol(s[j])
    requires m > 0 ==> !IsEol(s[m - 1])
    ensures ContentEnd(s, n) == m
  {
    if m < n {
      ContentEndAt(s, n - 1, m);
    }
  }

  lemma TrimmedLine(content: string, eol: string)
    requires NoEol(content) && eol in {"", "\n", "\r\n"}
    ensures TrimEol(content + eol) == content
  {
    var l := content + eol;
    forall j | |content| <= j < |l| ensures IsEol(l[j]) {
      assert l[j] == eol[j - |content|];
    }
    ContentEndAt(l, |l|, |content|);
    assert l[..|content|] == content;
  }

  lemma FirstLine(content: string, ending: Ending, after: string)
    requires NoEol(content)
    ensures
      var s := content + Eol(ending) + after;
      var n := NewlineFrom(s, 0);
      n < |s| && TrimEol(s[..n + 1]) == content && s[n + 1..] == after
  {
    hide TrimEol;
    var l := content + Eol(ending);
    var s := l + after;
    var m := |l| - 1;
    assert s[m] == '\n';
    forall j | 0 <= j < m ensures s[j] != '\n' {
      assert j < |content| ==> s[j] == content[j];
    }
    assert NewlineFrom(s, 0) == m;
    assert s[..m + 1] == l;
    TrimmedLine(content, Eol(ending));
    assert s[m + 1..] == after;
  }

  lemma LastLine(content: string)
    requires NoEol(content)
    ensures NewlineFrom(content, 0) == |content| && TrimEol(content) == content
  {
    hide TrimEol;
    assert content + "" == content;
    TrimmedLine(content, "");
  }

  /** Reading a whole line passes it to the collected fields, or ends an event at a blank one. */
  lemma ReadLine(s: string, line: Line, p: Partial, rest: string, broken: bool)
    requires var n := NewlineFrom(s, 0); n < |s| && TrimEol(s[..n + 1]) == Content(line) && s[n + 1..] == rest
    requires ConsumeLine(Content(line), p) == Step(line, p) && (Content(line) == "" <==> line == Blank)
    ensures AllEvents(s, p, broken) ==
            if line == Blank && p != NOTHING
            then [SseEvent(p.name, Join(p.data, "\n"))] + AllEvents(rest, NOTHING, broken)
            else AllEvents(rest, Step(line, p), broken)
  {
    hide Content, ConsumeLine, TrimEol, Join, Step;
    StepOf(line, p);
  }

  lemma ReadPrinted(ws: seq<Written>, last: Line, p: Partial, broken: bool)
    requires ws != [] && Proper(ws[0].line)
    ensures
      var rest := Print(ws[1..]) + Content(last);
      AllEvents(Print(ws) + Content(last), p, broken) ==
      if ws[0].line == Blank && p != NOTHING
      then [SseEvent(p.name, Join(p.data, "\n"))] + AllEvents(rest, NOTHING, broken)
      else AllEvents(rest, Step(ws[0].line, p), broken)
  {
    hide Proper, Content, ConsumeLine, Step, TrimEol, NoEol, Eol, AllEvents, Join, NewlineFrom;
    var line, rest := ws[0].line, Print(ws[1..]) + Content(last);
    ContentOf(line, p);
    var l := Content(line) + Eol(ws[0].ending);
    assert (l + Print(ws[1..])) + Content(last) == l + rest;
    FirstLine(Content(line), ws[0].ending, rest);
    ReadLine(l + rest, line, p, rest, broken);
  }

  lemma ReadLast(last: Line, p: Partial, broken: bool)
    requires Proper(last)
    ensures AllEvents(Content(last), p, broken) == Denote(if broken then [] else [last], p, !broken)
  {
    hide Proper, Content, ConsumeLine, Step, TrimEol, NoEol, AllEvents, NewlineFrom, Denote;
    ContentOf(last, p);
    LastLine(Content(last));
    LastEvents(Content(last), last, p, broken);
  }

  lemma DenoteHead(line: Line, rest: seq<Line>, p: Partial, flush: bool)
    ensures Denote([line] + rest, p, flush) ==
            if line == Blank && p != NOTHING
            then [SseEvent(p.name, Join(p.data, "\n"))] + Denote(rest, NOTHING, flush)
            else Denote(rest, Step(line, p), flush)
  {
    hide Step, Join;
    assert ([line] + rest)[1..] == rest;
  }

  /** Whatever the line endings are, reading the printed lines, the last of them possibly cut off
      before its line ending, delivers exactly the events the lines mean. */
  lemma {:induction false} ReaderDenotes(ws: seq<Written>, last: Line, p: Partial, broken: bool)
    requires Proper(last) && forall w :: w in ws ==> Proper(w.line)
    ensures AllEvents(Print(ws) + Content(last), p, broken) ==
            Denote(Lines(ws) + (if broken then [] else [last]), p, !broken)
    decreases ws
  {
    hide Proper, Content, Step, AllEvents, Join, Denote;
    var tail := if broken then [] else [last];
    if ws == [] {
      assert Print(ws) + Content(last) == Content(last);
      assert Lines(ws) + tail == tail;
      ReadLast(last, p, broken);
    } else {
      var line, rest := ws[0].line, Lines(ws[1..]) + tail;
      assert Lines(ws) + tail == [line] + rest;
      ReadPrinted(ws, last, p, broken);
      DenoteHead(line, rest, p, !broken);
      ReaderDenotes(ws[1..], last, if line == Blank && p != NOTHING then NOTHING else Step(line, p), broken);
    }
  }

  lemma LastEvents(content: string, last: Line, p: Partial, broken: bool)
    requires NewlineFrom(content, 0) == |content| && TrimEol(content) == content
    requires ConsumeLine(content, p) == Step(last, p)
    ensures AllEvents(content, p, broken) == Denote(if broken then [] else [last], p, !broken)
  {
    hide ConsumeLine, TrimEol, Trim;
    assert AllEvents("", NOTHING, broken) == [] by { NothingLeft(broken); }
    if !broken {
      assert [last][1..] == [];
    }
  }

  lemma NothingLeft(broken: bool)
    ensures AllEvents("", NOTHING, broken) == []
  {
    assert TrimEol("") == "";
  }

  // ---- Noise ----

  predicate Significant(line: Line) {
    !line.Comment? && !line.Other?
  }

  /** The lines without comments, unknown fields and repeated blank lines. A blank line is a
      repetition when no field line stands between it and the last blank line or the start. */
  function Tidy(lines: seq<Line>, between: bool): seq<Line> {
    if lines == [] then []
    else if !Significant(lines[0]) || (lines[0] == Blank && between) then Tidy(lines[1..], between)
    else [lines[0]] + Tidy(lines[1..], lines[0] == Blank)
  }

  /** Comments, unknown fields and repeated blank lines change nothing. */
  lemma {:induction false} TidyMeansTheSame(lines: seq<Line>, p: Partial, between: bool, flush: bool)
    requires between ==> p == NOTHING
    ensures Denote(Tidy(lines, between), p, flush) == Denote(lines, p, flush)
  {
    hide Step;
    if lines != [] {
      var line, rest := lines[0], lines[1..];
      StepOf(line, p);
      if !Significant(line) || (line == Blank && between) {
        TidyMeansTheSame(rest, p, between, flush);
      } else {
        var tidy := Tidy(lines, between);
        assert tidy[0] == line && tidy[1..] == Tidy(rest, line == Blank);
        TidyMeansTheSame(rest, if line == Blank then NOTHING else Step(line, p), line == Blank, flush);
      }
    }
  }

  lemma StepOf(line: Line, p: Partial)
    ensures !Significant(line) || line == Blank ==> Step(line, p) == p
  {
  }

  // ---- Round trip ----

  /** An event as a server means it: its name and its data, line by line. */
  datatype Message = Message(name: string, data: seq<string>)

  ghost predicate Printable(m: Message) {
    && NoEol(m.name) && Trimmed(m.name)
    && (forall d :: d in m.data ==> NoEol(d) && Trimmed(d))
    && (m.name != "" || m.data != [])
  }

  function DataLines(data: seq<string>): (lines: seq<Line>)
    ensures |lines| == |data|
  {
    if data == [] then [] else [DataLine(" " + data[0])] + DataLines(data[1..])
  }

  function MessageLines(m: Message): seq<Line> {
    (if m.name == "" then [] else [EventLine(" " + m.name)]) + DataLines(m.data) + [Blank]
  }

  function StreamLines(ms: seq<Message>): seq<Line> {
    if ms == [] then [] else MessageLines(ms[0]) + StreamLines(ms[1..])
  }

  function Delivered(ms: seq<Message>): seq<SseEvent> {
    if ms == [] then []
    else [SseEvent(ms[0].name, Join(ms[0].data, "\n"))] + Delivered(ms[1..])
  }

  lemma SpaceBeforeTrimmed(s: string)
    requires Trimmed(s)
    ensures Trim(" " + s) == s
  {
    var t := " " + s;
    if s == "" {
      assert SkipSpaces(t, 0) == 1;
      assert t[1..] == s;
      TrimmedIsFixed(s);
    } else {
      assert t[1] == s[0];
      assert SkipSpaces(t, 0) == 1;
      assert TrimLeft(t) == s;
      assert DropSpaces(s, |s|) == |s|;
      assert s[..|s|] == s;
    }
  }

  lemma {:induction false} DataLinesAccumulate(data: seq<string>, after: seq<Line>, p: Partial, flush: bool)
    requires forall d :: d in data ==> Trimmed(d)
    ensures Denote(DataLines(data) + after, p, flush) == Denote(after, p.(data := p.data + data), flush)
  {
    hide Trim, Trimmed, Denote;
    if data == [] {
      assert DataLines(data) + after == after;
      assert p.data + data == p.data;
    } else {
      var line, rest := DataLine(" " + data[0]), DataLines(data[1..]) + after;
      assert ([line] + DataLines(data[1..])) + after == [line] + rest;
      DenoteHead(line, rest, p, flush);
      SpaceBeforeTrimmed(data[0]);
      var q := p.(data := p.data + [data[0]]);
      DataLinesAccumulate(data[1..], after, q, flush);
      assert data == [data[0]] + data[1..];
      assert (p.data + [data[0]]) + data[1..] == p.data + ([data[0]] + data[1..]);
    }
  }

  lemma MessageRoundTrip(m: Message, after: seq<Line>, flush: bool)
    requires Printable(m)
    ensures Denote(MessageLines(m) + after, NOTHING, flush) ==
            [SseEvent(m.name, Join(m.data, "\n"))] + Denote(after, NOTHING, flush)
  {
    hide Trim, Trimmed, NoEol, Join;
    var tail := [Blank] + after;
    var body := DataLines(m.data) + tail;
    var p := Partial(m.name, []);
    if m.name == "" {
      assert MessageLines(m) + after == body;
    } else {
      SpaceBeforeTrimmed(m.name);
      assert MessageLines(m) + after == [EventLine(" " + m.name)] + body;
      DenoteHead(EventLine(" " + m.name), body, NOTHING, flush);
    }
    assert Denote(MessageLines(m) + after, NOTHING, flush) == Denote(body, p, flush);
    DataLinesAccumulate(m.data, tail, p, flush);
    assert [] + m.data == m.data;
    assert tail[1..] == after;
  }

  lemma {:induction false} StreamRoundTrip(ms: seq<Message>, flush: bool)
    requires forall m :: m in ms ==> Printable(m)
    ensures Denote(StreamLines(ms), NOTHING, flush) == Delivered(ms)
  {
    hide Printable, MessageLines;
    if ms != [] {
      MessageRoundTrip(ms[0], StreamLines(ms[1..]), flush);
      StreamRoundTrip(ms[1..], flush);
    }
  }

  /** Reading a printed stream delivers the same events in the same order, with any mix of line
      endings and any comments, unknown fields and extra blank lines in it. */
  lemma PrintedStreamRoundTrip(ms: seq<Message>, ws: seq<Written>, broken: bool)
    requires forall m :: m in ms ==> Printable(m)
    requires forall w :: w in ws ==> Proper(w.line)
    requires Tidy(Lines(ws), true) == StreamLines(ms)
    ensures AllEvents(Print(ws), NOTHING, broken) == Delivered(ms)
  {
    hide Printable, Proper, AllEvents, Tidy, StreamLines;
    assert Print(ws) + "" == Print(ws);
    ReaderDenotes(ws, Blank, NOTHING, broken) by { assert Proper(Blank) by { ProperBlank(); } }
    var lines := Lines(ws);
    assert lines + [] == lines;
    StreamRoundTrip(ms, true);
    StreamRoundTrip(ms, false);
    TidyMeansTheSame(lines, NOTHING, true, true);
    TidyMeansTheSame(lines, NOTHING, true, false);
    FinalBlank(lines, NOTHING);
  }

  lemma ProperBlank()
    ensures Proper(Blank)
  {
  }

  /** At the end of a clean stream a blank line makes no difference. */
  lemma {:induction false} FinalBlank(lines: seq<Line>, p: Partial)
    ensures Denote(lines + [Blank], p, true) == Denote(lines, p, true)
  {
    hide Step, Join;
    if lines == [] {
      assert [] + [Blank] == [Blank];
      assert [Blank][1..] == [];
      StepOf(Blank, p);
    } else {
      assert (lines + [Blank])[1..] == lines[1..] + [Blank];
      FinalBlank(lines[1..], NOTHING);
      FinalBlank(lines[1..], Step(lines[0], p));
    }
  }
}
