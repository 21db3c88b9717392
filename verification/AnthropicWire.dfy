/** From the bytes of an Anthropic response to the events that it publishes: the event reader and the
    translator, one after the other (internal/provider/anthropic/chat.go), for runs whose context is not
    cancelled. */
module AnthropicWire {
  import opened Wrappers
  import opened Text
  import opened Sse
  import opened AnthropicStream

  /** What JSON decoding makes of the data of an event. */
  type Decoder = string -> Result<Payload, string>

  function UpstreamOf(e: SseEvent, decode: Decoder): Upstream {
    if Trim(e.data) == "" then BlankData
    else match decode(e.data)
         case Ok(payload) => Decoded(e.name, payload)
         case Err(error) => Malformed(error)
  }

  /** The signals of the events that are read. */
  function SignalsOf(es: seq<SseEvent>, decode: Decoder): (signals: seq<Signal>)
    ensures |signals| == |es|
    ensures forall i :: 0 <= i < |es| ==> signals[i] == Classify(UpstreamOf(es[i], decode))
  {
    seq(|es|, i requires 0 <= i < |es| => Classify(UpstreamOf(es[i], decode)))
  }

  function Read(body: string, broken: bool): seq<SseEvent> {
    AllEvents(body, NOTHING, broken)
  }

  function EndOf(broken: bool, readError: string): BodyEnd {
    if broken then ReadError(readError) else Eof
  }

  lemma ReadUnfolds(body: string, broken: bool)
    ensures
      var r := ReadEvent(body, NOTHING, broken);
      if r.Event? then |r.rest| < |body| && Read(body, broken) == [r.event] + Read(r.rest, broken) else Read(body, broken) == []
  {
    hide ReadEvent;
  }

  lemma SignalsOfRest(e: SseEvent, es: seq<SseEvent>, decode: Decoder)
    ensures SignalsOf([e] + es, decode)[0] == Classify(UpstreamOf(e, decode))
    ensures SignalsOf([e] + es, decode)[1..] == SignalsOf(es, decode)
  {
    hide Classify, UpstreamOf;
  }

  lemma ReadOne(body: string, broken: bool, decode: Decoder)
    ensures
      var signals := SignalsOf(Read(body, broken), decode);
      var r := ReadEvent(body, NOTHING, broken);
      if r.Event? then
        && |r.rest| < |body|
        && signals != [] && signals[0] == Classify(UpstreamOf(r.event, decode))
        && signals[1..] == SignalsOf(Read(r.rest, broken), decode)
      else signals == []
  {
    hide Classify, UpstreamOf, ReadEvent, Read, AllEvents, SignalsOf;
    ReadUnfolds(body, broken);
    var r := ReadEvent(body, NOTHING, broken);
    if r.Event? {
      SignalsOfRest(r.event, Read(r.rest, broken), decode);
    }
  }

  lemma IgnoredChangesNothing(s: State, signals: seq<Signal>, end: BodyEnd)
    requires signals != [] && signals[0].Ignored?
    ensures Translate(s, signals, end) == Translate(s, signals[1..], end)
    ensures EndsInStop(signals) == EndsInStop(signals[1..])
  {
    assert [] + Translate(s, signals[1..], end) == Translate(s, signals[1..], end);
  }

  /** The goroutine that reads a response and publishes its translation, to the end of the stream. */
  method ReadAndTranslate(reader: SseReader, translator: StreamTranslator, decode: Decoder, readError: string)
    modifies reader, translator
    ensures
      var signals, end := SignalsOf(Read(old(reader.unread), reader.broken), decode), EndOf(reader.broken, readError);
      && translator.events == old(translator.events) + Translate(old(translator.Current()), signals, end)
      && translator.failedAttempts == old(translator.failedAttempts) + (if EndsInStop(signals) then 0 else 1)
  {
    hide Published, Next, Classify, UpstreamOf, AllEvents, Trim;
    ghost var all := SignalsOf(Read(reader.unread, reader.broken), decode);
    ghost var end := EndOf(reader.broken, readError);
    ghost var expected := translator.events + Translate(translator.Current(), all, end);
    ghost var begun := translator.failedAttempts;
    while true
      invariant
        var signals := SignalsOf(Read(reader.unread, reader.broken), decode);
        && expected == translator.events + Translate(translator.Current(), signals, end)
        && EndsInStop(all) == EndsInStop(signals)
      invariant translator.failedAttempts == begun
      decreases |reader.unread|
    {
      ghost var signals := SignalsOf(Read(reader.unread, reader.broken), decode);
      ReadOne(reader.unread, reader.broken, decode);
      var broken := reader.broken;
      ghost var body := reader.unread;
      var r := reader.ReadSSEEvent();
      if !r.Event? {
        EndIsKnown(body, broken);
        translator.PublishFailure(if r.EndOfStream? then "upstream stream ended before message_stop" else readError);
        return;
      }
      if Trim(r.event.data) == "" {
        BlankIsIgnored(r.event, decode);
        IgnoredChangesNothing(translator.Current(), signals, end);
        continue;
      }
      ghost var e, tail := translator.events, Translate(Next(translator.Current(), signals[0]), signals[1..], end);
      var done, ok := translator.ConsumeEvent(UpstreamOf(r.event, decode));
      if done || !ok {
        return;
      }
      ghost var p := translator.events[|e|..];
      assert translator.events == e + p;
      assert e + (p + tail) == (e + p) + tail;
    }
  }

  lemma BlankIsIgnored(e: SseEvent, decode: Decoder)
    requires Trim(e.data) == ""
    ensures Classify(UpstreamOf(e, decode)).Ignored?
  {
    hide Trim;
  }

  lemma {:induction false} EndIsKnown(body: string, broken: bool)
    ensures ReadEvent(body, NOTHING, broken).EndOfStream? ==> !broken
    ensures ReadEvent(body, NOTHING, broken).Broken? ==> broken
  {
    EndFrom(body, NOTHING, broken);
  }

  lemma {:induction false} EndFrom(s: string, p: Partial, broken: bool)
    ensures ReadEvent(s, p, broken).EndOfStream? ==> !broken
    ensures ReadEvent(s, p, broken).Broken? ==> broken
    decreases |s|
  {
    hide ConsumeLine, Trim, TrimEol, BuildEvent;
    var n := NewlineFrom(s, 0);
    if n < |s| {
      EndFrom(s[n + 1..], p, broken);
      EndFrom(s[n + 1..], ConsumeLine(TrimEol(s[..n + 1]), p), broken);
    }
  }

  /** A server's messages, printed with any mix of line endings, comments, unknown fields and blank lines,
      read and translated: the published content is exactly the live text deltas of the messages. */
  lemma PrintedText(ms: seq<Message>, ws: seq<Written>, broken: bool, decode: Decoder, s: State, readError: string)
    requires forall m :: m in ms ==> Printable(m)
    requires forall w :: w in ws ==> Proper(w.line)
    requires Tidy(Lines(ws), true) == StreamLines(ms)
    ensures Read(Print(ws), broken) == Delivered(ms)
    ensures ContentText(Translate(s, SignalsOf(Read(Print(ws), broken), decode), EndOf(broken, readError))) ==
            AnthropicStream.DeltaText(Live(SignalsOf(Delivered(ms), decode)))
  {
    hide AllEvents, Printable, Proper, Tidy, Print, Translate, ContentText, Live, AnthropicStream.DeltaText;
    PrintedStreamRoundTrip(ms, ws, broken);
    ContentIsDeltaText(s, SignalsOf(Delivered(ms), decode), EndOf(broken, readError));
  }

  /** When the deltas of those messages make up text blocks, that is the text that a response with the same
      blocks returns at once. */
  lemma PrintedStreamMatchesResponse(ms: seq<Message>, ws: seq<Written>, broken: bool, decode: Decoder, s: State,
                                     readError: string, blocks: seq<StreamedBlock>)
    requires forall m :: m in ms ==> Printable(m)
    requires forall w :: w in ws ==> Proper(w.line)
    requires Tidy(Lines(ws), true) == StreamLines(ms)
    requires Texts(SignalsOf(Delivered(ms), decode)) == Texts(MessageSignals(blocks))
    ensures ContentText(Translate(s, SignalsOf(Read(Print(ws), broken), decode), EndOf(broken, readError))) ==
            BlockText(WholeBlocks(blocks))
  {
    hide AllEvents, Printable, Proper, Tidy, Print, Translate, ContentText, Live, AnthropicStream.DeltaText, Texts, MessageSignals;
    PrintedStreamRoundTrip(ms, ws, broken);
    StreamMatchesResponse(s, SignalsOf(Delivered(ms), decode), blocks, EndOf(broken, readError));
  }
}
