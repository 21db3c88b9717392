/** The translation of an Anthropic event stream into gateway chunks
    (internal/provider/anthropic/chat.go), for runs whose context is not cancelled. */
module AnthropicStream {
  import opened Wrappers
  import opened Text

  datatype StartMessage = StartMessage(id: string, model: string, role: string)

  datatype Delta = Delta(kind: string, text: string, stopReason: string)

  datatype Payload = Payload(kind: string, message: Option<StartMessage>, delta: Delta, error: Option<string>)

  /** One event read from the upstream body: without data, with data that does not decode, or decoded. */
  datatype Upstream = BlankData | Malformed(error: string) | Decoded(name: string, payload: Payload)

  /** How reading the body ends when no event stops it first. */
  datatype BodyEnd = Eof | ReadError(error: string)

  datatype StreamEvent =
    | Chunk(id: string, model: string, role: string, content: string, finishReason: string)
    | Failure(error: string)

  function StreamEventKind(name: string, payloadKind: string): string {
    if Trim(name) != "" then Trim(name) else Trim(payloadKind)
  }

  function FinishReason(stopReason: string): (r: string)
    ensures r != ""
  {
    var trimmed := Trim(stopReason);
    if trimmed == "" || trimmed == "end_turn" then "stop"
    else if trimmed == "tool_use" then "tool_calls"
    else trimmed
  }

  // ---- What one upstream event is ----

  /** An upstream event sorted by what it does to the stream. */
  datatype Signal =
    | Ignored
    | Started(id: string, model: string, role: string)
    | TextDelta(text: string)
    | StopDelta(reason: string)
    | MessageStop
    | Fatal(error: string)

  function Classify(u: Upstream): Signal {
    match u
    case BlankData => Ignored
    case Malformed(e) => Fatal(e)
    case Decoded(name, payload) =>
      if payload.error.Some? && payload.error.value != "" then Fatal(payload.error.value)
      else
        var kind := StreamEventKind(name, payload.kind);
        if kind == "message_start" then
          match payload.message
          case None => Ignored
          case Some(m) => Started(m.id, m.model, m.role)
        else if kind == "content_block_delta" then
          if Trim(payload.delta.kind) == "text_delta" && payload.delta.text != ""
          then TextDelta(payload.delta.text) else Ignored
        else if kind == "message_delta" then
          if payload.delta.stopReason == "" then Ignored else StopDelta(payload.delta.stopReason)
        else if kind == "message_stop" then MessageStop
        else if kind == "error" then Fatal("anthropic stream error")
        else Ignored
  }

  function Signals(us: seq<Upstream>): (s: seq<Signal>)
    ensures |s| == |us|
    ensures forall i :: 0 <= i < |us| ==> s[i] == Classify(us[i])
  {
    seq(|us|, i requires 0 <= i < |us| => Classify(us[i]))
  }

  // ---- The translation ----

  datatype State = State(id: string, model: string, pendingRole: string, roleEmitted: bool, finishReasonEmitted: bool)

  function AfterStart(s: State, id: string, model: string, role: string): State {
    State(if Trim(id) != "" then id else s.id,
          if Trim(model) != "" then model else s.model,
          if Trim(role) != "" then role else s.pendingRole,
          if Trim(role) != "" then false else s.roleEmitted,
          s.finishReasonEmitted)
  }

  function RoleToEmit(s: State): string {
    if s.roleEmitted then "" else s.pendingRole
  }

  function Next(s: State, signal: Signal): State {
    match signal
    case Started(id, model, role) => AfterStart(s, id, model, role)
    case TextDelta(_) => s.(roleEmitted := s.roleEmitted || s.pendingRole != "")
    case StopDelta(_) => s.(finishReasonEmitted := true)
    case _ => s
  }

  function Published(s: State, signal: Signal): seq<StreamEvent> {
    match signal
    case TextDelta(text) => [Chunk(s.id, s.model, RoleToEmit(s), text, "")]
    case StopDelta(reason) => [Chunk(s.id, s.model, "", "", FinishReason(reason))]
    case MessageStop => if s.finishReasonEmitted then [] else [Chunk(s.id, s.model, "", "", "stop")]
    case Fatal(error) => [Failure(error)]
    case _ => []
  }

  predicate Terminal(signal: Signal) {
    signal.MessageStop? || signal.Fatal?
  }

  function EndFailure(end: BodyEnd): string {
    if end.Eof? then "upstream stream ended before message_stop" else end.error
  }

  /** Everything a run publishes. */
  function Translate(s: State, signals: seq<Signal>, end: BodyEnd): seq<StreamEvent>
    decreases |signals|
  {
    if signals == [] then [Failure(EndFailure(end))]
    else if Terminal(signals[0]) then Published(s, signals[0])
    else Published(s, signals[0]) + Translate(Next(s, signals[0]), signals[1..], end)
  }

  class StreamTranslator {
    var events: seq<StreamEvent>
    var failedAttempts: nat
    var streamID: string
    var streamModel: string
    var pendingRole: string
    var roleEmitted: bool
    var finishReasonEmitted: bool

    constructor (streamID: string, model: string)
      ensures events == [] && failedAttempts == 0
      ensures Current() == State(streamID, model, "", false, false)
    {
      events, failedAttempts := [], 0;
      this.streamID, streamModel, pendingRole := streamID, model, "";
      roleEmitted, finishReasonEmitted := false, false;
    }

    function Current(): State
      reads this
    {
      State(streamID, streamModel, pendingRole, roleEmitted, finishReasonEmitted)
    }

    method ConsumeMessageStart(message: Option<StartMessage>)
      modifies `streamID, `streamModel, `pendingRole, `roleEmitted
      ensures Current() == if message.None? then old(Current())
                           else AfterStart(old(Current()), message.value.id, message.value.model, message.value.role)
    {
      hide Trim;
      if message.None? {
        return;
      }
      if Trim(message.value.id) != "" {
        streamID := message.value.id;
      }
      if Trim(message.value.model) != "" {
        streamModel := message.value.model;
      }
      if Trim(message.value.role) != "" {
        pendingRole := message.value.role;
        roleEmitted := false;
      }
    }

    method PublishChunk(role: string, content: string, finishReason: string)
      modifies `events
      ensures events == old(events) + [Chunk(streamID, streamModel, role, content, finishReason)]
    {
      events := events + [Chunk(streamID, streamModel, role, content, finishReason)];
    }

    method PublishFailure(error: string)
      modifies `events, `failedAttempts
      ensures events == old(events) + [Failure(error)] && failedAttempts == old(failedAttempts) + 1
    {
      failedAttempts := failedAttempts + 1;
      events := events + [Failure(error)];
    }

    method PublishContentDelta(delta: Delta)
      modifies `events, `roleEmitted
      ensures
        var text := Trim(delta.kind) == "text_delta" && delta.text != "";
        var signal := if text then TextDelta(delta.text) else Ignored;
        events == old(events) + Published(old(Current()), signal) && Current() == Next(old(Current()), signal)
    {
      if Trim(delta.kind) != "text_delta" || delta.text == "" {
        return;
      }
      var role := "";
      if !roleEmitted && pendingRole != "" {
        role := pendingRole;
        roleEmitted := true;
      }
      PublishChunk(role, delta.text, "");
    }

    /** Handles one event; done and ok say whether the stream is complete and whether it goes on. */
    method ConsumeEvent(u: Upstream) returns (done: bool, ok: bool)
      modifies this
      ensures events == old(events) + Published(old(Current()), Classify(u))
      ensures Current() == Next(old(Current()), Classify(u))
      ensures done <==> Classify(u) == MessageStop
      ensures ok <==> !Classify(u).Fatal?
      ensures failedAttempts == old(failedAttempts) + (if Classify(u).Fatal? then 1 else 0)
    {
      hide Trim, AfterStart;
      if u.BlankData? {
        return false, true;
      }
      if u.Malformed? {
        PublishFailure(u.error);
        return false, false;
      }
      var payload := u.payload;
      if payload.error.Some? && payload.error.value != "" {
        PublishFailure(payload.error.value);
        return false, false;
      }
      var kind := StreamEventKind(u.name, payload.kind);
      if kind == "message_start" {
        ConsumeMessageStart(payload.message);
        return false, true;
      } else if kind == "content_block_delta" {
        PublishContentDelta(payload.delta);
        return false, true;
      } else if kind == "message_delta" {
        if payload.delta.stopReason != "" {
          finishReasonEmitted := true;
          PublishChunk("", "", FinishReason(payload.delta.stopReason));
        }
        return false, true;
      } else if kind == "message_stop" {
        if !finishReasonEmitted {
          PublishChunk("", "", "stop");
        }
        return true, true;
      } else if kind == "error" {
        PublishFailure("anthropic stream error");
        return false, false;
      } else {
        return false, true;
      }
    }

    /** The reading loop: events until one of them ends the stream or the body does. */
    method Run(upstream: seq<Upstream>, end: BodyEnd)
      modifies this
      ensures events == old(events) + Translate(old(Current()), Signals(upstream), end)
      ensures failedAttempts == old(failedAttempts) + (if EndsInStop(Signals(upstream)) then 0 else 1)
    {
      hide Published, Next, Classify;
      var before := events;
      ghost var all := Translate(Current(), Signals(upstream), end);
      ghost var begun := failedAttempts;
      for i := 0 to |upstream|
        invariant before + all == events + Translate(Current(), Signals(upstream)[i..], end)
        invariant EndsInStop(Signals(upstream)) == EndsInStop(Signals(upstream)[i..])
        invariant failedAttempts == begun
      {
        ghost var signals := Signals(upstream)[i..];
        assert signals[1..] == Signals(upstream)[i + 1..];
        ghost var e, rest := events, Translate(Next(Current(), signals[0]), signals[1..], end);
        var done, ok := ConsumeEvent(upstream[i]);
        if done || !ok {
          return;
        }
        ghost var p := events[|e|..];
        assert events == e + p;
        assert e + (p + rest) == (e + p) + rest;
      }
      assert Signals(upstream)[|upstream|..] == [];
      match end {
        case Eof => PublishFailure("upstream stream ended before message_stop");
        case ReadError(error) => PublishFailure(error);
      }
    }
  }

  // ---- What a client sees ----

  /** The signals that take part: up to the first terminal one. */
  function Live(signals: seq<Signal>): seq<Signal> {
    if signals == [] then []
    else if Terminal(signals[0]) then [signals[0]]
    else [signals[0]] + Live(signals[1..])
  }

  /** The first terminal signal is message_stop. */
  predicate EndsInStop(signals: seq<Signal>) {
    signals != [] && (if Terminal(signals[0]) then signals[0].MessageStop? else EndsInStop(signals[1..]))
  }

  /** The text of all live text deltas. */
  function DeltaText(signals: seq<Signal>): string {
    if signals == [] then ""
    else (if signals[0].TextDelta? then signals[0].text else "") + DeltaText(signals[1..])
  }

  function ContentText(events: seq<StreamEvent>): string {
    if events == [] then ""
    else (if events[0].Chunk? then events[0].content else "") + ContentText(events[1..])
  }

  lemma {:induction false} ContentTextAppend(a: seq<StreamEvent>, b: seq<StreamEvent>)
    ensures ContentText(a + b) == ContentText(a) + ContentText(b)
  {
    if a == [] {
      assert a + b == b;
      assert "" + ContentText(b) == ContentText(b);
    } else {
      assert (a + b)[1..] == a[1..] + b;
      ContentTextAppend(a[1..], b);
      var x := if a[0].Chunk? then a[0].content else "";
      assert x + (ContentText(a[1..]) + ContentText(b)) == (x + ContentText(a[1..])) + ContentText(b);
    }
  }

  lemma PublishedText(s: State, signal: Signal)
    ensures ContentText(Published(s, signal)) == if signal.TextDelta? then signal.text else ""
  {
    var p := Published(s, signal);
    if p != [] {
      assert p[1..] == [];
      assert p[0].Chunk? ==> p[0].content + "" == p[0].content;
    }
  }

  /** The published content is exactly the text deltas, nothing lost, added or reordered. */
  lemma {:induction false} ContentIsDeltaText(s: State, signals: seq<Signal>, end: BodyEnd)
    ensures ContentText(Translate(s, signals, end)) == DeltaText(Live(signals))
    decreases |signals|
  {
    hide Published, Next;
    if signals == [] {
      var failure := [Failure(EndFailure(end))];
      assert failure[1..] == [];
    } else {
      var signal := signals[0];
      PublishedText(s, signal);
      var text := if signal.TextDelta? then signal.text else "";
      if Terminal(signal) {
        assert Live(signals)[1..] == [];
        assert text + "" == text;
      } else {
        assert Live(signals)[1..] == Live(signals[1..]);
        ContentIsDeltaText(Next(s, signal), signals[1..], end);
        ContentTextAppend(Published(s, signal), Translate(Next(s, signal), signals[1..], end));
      }
    }
  }

  predicate AllChunks(events: seq<StreamEvent>) {
    forall i :: 0 <= i < |events| ==> events[i].Chunk?
  }

  predicate CarriesFinishReason(events: seq<StreamEvent>) {
    exists i :: 0 <= i < |events| && events[i].Chunk? && events[i].finishReason != ""
  }

  /** Chunks, and then exactly one error, which is the last event. */
  predicate ErrorLast(events: seq<StreamEvent>) {
    events != [] && events[|events| - 1].Failure? && AllChunks(events[..|events| - 1])
  }

  lemma MarksOfConcat(a: seq<StreamEvent>, b: seq<StreamEvent>)
    requires AllChunks(a)
    ensures AllChunks(b) ==> AllChunks(a + b)
    ensures CarriesFinishReason(a) || CarriesFinishReason(b) ==> CarriesFinishReason(a + b)
    ensures ErrorLast(b) ==> ErrorLast(a + b)
  {
    if CarriesFinishReason(a) {
      var i :| 0 <= i < |a| && a[i].Chunk? && a[i].finishReason != "";
      assert (a + b)[i] == a[i];
    } else if CarriesFinishReason(b) {
      var i :| 0 <= i < |b| && b[i].Chunk? && b[i].finishReason != "";
      assert (a + b)[|a| + i] == b[i];
    }
    if b != [] {
      assert (a + b)[..|a + b| - 1] == a + b[..|b| - 1];
    }
  }

  lemma MarksOfPublished(s: State, signal: Signal)
    ensures !signal.Fatal? ==> AllChunks(Published(s, signal))
    ensures signal.StopDelta? || (signal.MessageStop? && !s.finishReasonEmitted)
            ==> CarriesFinishReason(Published(s, signal))
    ensures signal.Fatal? ==> ErrorLast(Published(s, signal))
    ensures Next(s, signal).finishReasonEmitted <==> s.finishReasonEmitted || signal.StopDelta?
  {
    hide FinishReason, Trim;
    var p := Published(s, signal);
    if p != [] && p[0].Chunk? {
      assert p[0].finishReason != "" ==> CarriesFinishReason(p);
    }
  }

  /** A stream that ends in message_stop carries a finish reason and no error; any other stream
      publishes exactly one error, as its last event. */
  lemma {:induction false} EndingIsMarked(s: State, signals: seq<Signal>, end: BodyEnd)
    ensures EndsInStop(signals) ==>
              AllChunks(Translate(s, signals, end))
              && (s.finishReasonEmitted || CarriesFinishReason(Translate(s, signals, end)))
    ensures !EndsInStop(signals) ==> ErrorLast(Translate(s, signals, end))
    decreases |signals|
  {
    hide Published, Next, AllChunks, CarriesFinishReason, ErrorLast;
    if signals == [] {
      FailureIsLast(EndFailure(end));
    } else {
      MarksOfPublished(s, signals[0]);
      if !Terminal(signals[0]) {
        EndingIsMarked(Next(s, signals[0]), signals[1..], end);
        MarksOfConcat(Published(s, signals[0]), Translate(Next(s, signals[0]), signals[1..], end));
      }
    }
  }

  lemma FailureIsLast(error: string)
    ensures ErrorLast([Failure(error)])
  {
  }

  // ---- Roles ----

  function RolesSent(events: seq<StreamEvent>): seq<string> {
    if events == [] then []
    else (if events[0].Chunk? && events[0].role != "" then [events[0].role] else []) + RolesSent(events[1..])
  }

  /** The roles announced by message_start that a later text delta picks up, in order: a delta
      takes the last announced role, once. */
  function RolesDue(signals: seq<Signal>, announced: string): seq<string>
    decreases |signals|
  {
    if signals == [] then []
    else if signals[0].Started? && Trim(signals[0].role) != "" then RolesDue(signals[1..], signals[0].role)
    else if signals[0].TextDelta? && announced != "" then [announced] + RolesDue(signals[1..], "")
    else RolesDue(signals[1..], announced)
  }

  function Announcements(signals: seq<Signal>): nat {
    if signals == [] then 0
    else (if signals[0].Started? && Trim(signals[0].role) != "" then 1 else 0) + Announcements(signals[1..])
  }

  lemma {:induction false} RolesSentAppend(a: seq<StreamEvent>, b: seq<StreamEvent>)
    ensures RolesSent(a + b) == RolesSent(a) + RolesSent(b)
  {
    if a == [] {
      assert a + b == b;
      assert [] + RolesSent(b) == RolesSent(b);
    } else {
      assert (a + b)[1..] == a[1..] + b;
      RolesSentAppend(a[1..], b);
      var x := if a[0].Chunk? && a[0].role != "" then [a[0].role] else [];
      assert x + (RolesSent(a[1..]) + RolesSent(b)) == (x + RolesSent(a[1..])) + RolesSent(b);
    }
  }

  lemma PublishedRoles(s: State, signal: Signal)
    ensures RolesSent(Published(s, signal)) ==
            if signal.TextDelta? && RoleToEmit(s) != "" then [RoleToEmit(s)] else []
  {
    var p := Published(s, signal);
    if p != [] {
      assert p[1..] == [];
    }
  }

  lemma AnnouncedNext(s: State, signal: Signal)
    ensures RoleToEmit(Next(s, signal)) ==
            if signal.Started? && Trim(signal.role) != "" then signal.role
            else if signal.TextDelta? then "" else RoleToEmit(s)
  {
    hide Trim;
  }

  /** The roles sent are exactly the announced ones that are due. */
  lemma {:induction false} RolesFollowAnnouncements(s: State, signals: seq<Signal>, end: BodyEnd)
    ensures RolesSent(Translate(s, signals, end)) == RolesDue(Live(signals), RoleToEmit(s))
    decreases |signals|
  {
    hide Published, Next, RoleToEmit, Trim;
    if signals == [] {
      var failure := [Failure(EndFailure(end))];
      assert failure[1..] == [];
    } else {
      var signal := signals[0];
      PublishedRoles(s, signal);
      if Terminal(signal) {
        assert Live(signals)[1..] == [];
      } else {
        assert Live(signals)[1..] == Live(signals[1..]);
        AnnouncedNext(s, signal);
        RolesFollowAnnouncements(Next(s, signal), signals[1..], end);
        RolesSentAppend(Published(s, signal), Translate(Next(s, signal), signals[1..], end));
      }
    }
  }

  /** So a role is sent at most once per message_start that carries one. */
  lemma {:induction false} RolesAreBounded(signals: seq<Signal>, announced: string)
    ensures |RolesDue(signals, announced)| <= Announcements(signals) + (if announced != "" then 1 else 0)
    decreases |signals|
  {
    hide Trim;
    if signals != [] {
      RolesAreBounded(signals[1..], announced);
      RolesAreBounded(signals[1..], "");
      if signals[0].Started? {
        RolesAreBounded(signals[1..], signals[0].role);
      }
    }
  }

  // ---- Streamed text against the non-stream response ----

  datatype ContentBlock = ContentBlock(kind: string, text: string)

  /** extractTextContent: the text of the text blocks of a non-stream response. */
  method ExtractTextContent(blocks: seq<ContentBlock>) returns (builder: string)
    ensures builder == BlockText(blocks)
  {
    hide Trim;
    builder := "";
    for i := 0 to |blocks|
      invariant builder + BlockText(blocks[i..]) == BlockText(blocks)
    {
      ghost var before, rest := builder, BlockText(blocks[i + 1..]);
      assert blocks[i..][1..] == blocks[i + 1..];
      if Trim(blocks[i].kind) != "text" {
        assert "" + rest == rest;
        continue;
      }
      builder := builder + blocks[i].text;
      assert before + (blocks[i].text + rest) == builder + rest;
    }
    assert blocks[|blocks|..] == [];
    assert builder + "" == builder;
  }

  function BlockText(blocks: seq<ContentBlock>): string {
    if blocks == [] then ""
    else (if Trim(blocks[0].kind) == "text" then blocks[0].text else "") + BlockText(blocks[1..])
  }

  /** A content block as it streams: its kind and the deltas that make up its text. */
  datatype StreamedBlock = StreamedBlock(kind: string, deltas: seq<string>)

  function Deltas(texts: seq<string>): seq<Signal> {
    if texts == [] then []
    else [if texts[0] == "" then Ignored else TextDelta(texts[0])] + Deltas(texts[1..])
  }

  /** The signals of a block: a start, its text deltas if it is a text block, and a stop. */
  function BlockSignals(b: StreamedBlock): seq<Signal> {
    [Ignored] + (if Trim(b.kind) == "text" then Deltas(b.deltas) else []) + [Ignored]
  }

  function MessageSignals(blocks: seq<StreamedBlock>): seq<Signal> {
    if blocks == [] then [MessageStop] else BlockSignals(blocks[0]) + MessageSignals(blocks[1..])
  }

  function Joined(texts: seq<string>): string {
    if texts == [] then "" else texts[0] + Joined(texts[1..])
  }

  /** The same blocks as a non-stream response carries them. */
  function WholeBlocks(blocks: seq<StreamedBlock>): seq<ContentBlock> {
    if blocks == [] then []
    else [ContentBlock(blocks[0].kind, Joined(blocks[0].deltas))] + WholeBlocks(blocks[1..])
  }

  lemma {:induction false} LiveDeltas(texts: seq<string>, rest: seq<Signal>)
    ensures DeltaText(Live(Deltas(texts) + rest)) == Joined(texts) + DeltaText(Live(rest))
  {
    if texts == [] {
      assert Deltas(texts) + rest == rest;
      assert "" + DeltaText(Live(rest)) == DeltaText(Live(rest));
    } else {
      var signal := if texts[0] == "" then Ignored else TextDelta(texts[0]);
      var tail := Deltas(texts[1..]) + rest;
      assert Deltas(texts) + rest == [signal] + tail;
      LiveStep(signal, tail);
      LiveDeltas(texts[1..], rest);
      assert texts[0] + (Joined(texts[1..]) + DeltaText(Live(rest))) == Joined(texts) + DeltaText(Live(rest));
    }
  }

  lemma LiveStep(signal: Signal, tail: seq<Signal>)
    requires !Terminal(signal)
    ensures DeltaText(Live([signal] + tail)) == (if signal.TextDelta? then signal.text else "") + DeltaText(Live(tail))
  {
    assert ([signal] + tail)[1..] == tail;
    assert ([signal] + Live(tail))[1..] == Live(tail);
  }

  lemma BlockStep(b: StreamedBlock, rest: seq<Signal>)
    ensures DeltaText(Live(BlockSignals(b) + rest)) ==
            (if Trim(b.kind) == "text" then Joined(b.deltas) else "") + DeltaText(Live(rest))
  {
    hide Trim, Live, DeltaText;
    var body := if Trim(b.kind) == "text" then Deltas(b.deltas) else [];
    var tail := [Ignored] + rest;
    assert BlockSignals(b) + rest == [Ignored] + (body + tail);
    LiveStep(Ignored, body + tail);
    LiveStep(Ignored, rest);
    if Trim(b.kind) == "text" {
      LiveDeltas(b.deltas, tail);
    } else {
      assert body + tail == tail;
    }
    assert forall t: string :: "" + t == t;
  }

  /** Streaming nothing but the blocks sends the text that a non-stream response with them returns. */
  lemma {:induction false} BlocksMatchResponse(s: State, blocks: seq<StreamedBlock>, end: BodyEnd)
    ensures ContentText(Translate(s, MessageSignals(blocks), end)) == BlockText(WholeBlocks(blocks))
  {
    hide Translate, Trim, BlockSignals;
    ContentIsDeltaText(s, MessageSignals(blocks), end);
    if blocks == [] {
      assert [MessageStop][1..] == [];
    } else {
      BlockStep(blocks[0], MessageSignals(blocks[1..]));
      BlocksMatchResponse(s, blocks[1..], end);
      ContentIsDeltaText(s, MessageSignals(blocks[1..]), end);
      assert WholeBlocks(blocks)[1..] == WholeBlocks(blocks[1..]);
    }
  }

  /** The texts of the deltas before the first terminal signal, whatever other signals come between. */
  function Texts(signals: seq<Signal>): seq<string> {
    if signals == [] || Terminal(signals[0]) then []
    else (if signals[0].TextDelta? then [signals[0].text] else []) + Texts(signals[1..])
  }

  lemma {:induction false} TextsAreSent(signals: seq<Signal>)
    ensures DeltaText(Live(signals)) == Joined(Texts(signals))
  {
    if signals != [] {
      var head, tail := signals[0], signals[1..];
      if Terminal(head) {
        assert Live(signals)[1..] == [];
      } else {
        TextsAreSent(tail);
        assert Live(signals)[1..] == Live(tail);
        if head.TextDelta? {
          assert Texts(signals)[1..] == Texts(tail);
        } else {
          assert Texts(signals) == Texts(tail);
          assert "" + DeltaText(Live(tail)) == DeltaText(Live(tail));
        }
      }
    }
  }

  /** A stream whose text deltas are those of the blocks, with message starts, stop reasons, pings and
      unknown events anywhere between them, sends the text that a non-stream response with the same
      blocks returns. */
  lemma StreamMatchesResponse(s: State, signals: seq<Signal>, blocks: seq<StreamedBlock>, end: BodyEnd)
    requires Texts(signals) == Texts(MessageSignals(blocks))
    ensures ContentText(Translate(s, signals, end)) == BlockText(WholeBlocks(blocks))
  {
    hide Translate, ContentText, Live, DeltaText, MessageSignals, Texts;
    ContentIsDeltaText(s, signals, end);
    TextsAreSent(signals);
    TextsAreSent(MessageSignals(blocks));
    ContentIsDeltaText(s, MessageSignals(blocks), end);
    BlocksMatchResponse(s, blocks, end);
  }

  // ---- What the events of a server mean ----

  /** An event as the server means it. */
  datatype ServerEvent =
    | MessageStarted(id: string, model: string, role: string)
    | TextPiece(text: string)
    | OtherPiece(kind: string, text: string)
    | StopReason(reason: string)
    | MessageStopped
    | Problem(message: string)
    | ErrorEvent
    | Unknown(kind: string)

  function KindOf(e: ServerEvent): string {
    match e
    case MessageStarted(_, _, _) => "message_start"
    case TextPiece(_) => "content_block_delta"
    case OtherPiece(_, _) => "content_block_delta"
    case StopReason(_) => "message_delta"
    case MessageStopped => "message_stop"
    case Problem(_) => "error"
    case ErrorEvent => "error"
    case Unknown(kind) => kind
  }

  /** The event as it arrives: named in the event line, or in the payload alone. */
  function Arriving(e: ServerEvent, named: bool): Upstream {
    Decoded(if named then KindOf(e) else "",
            Payload(KindOf(e),
                    if e.MessageStarted? then Some(StartMessage(e.id, e.model, e.role)) else None,
                    match e
                    case TextPiece(text) => Delta("text_delta", text, "")
                    case OtherPiece(kind, text) => Delta(kind, text, "")
                    case StopReason(reason) => Delta("", "", reason)
                    case _ => Delta("", "", ""),
                    if e.Problem? then Some(e.message) else None))
  }

  lemma KindsAreTrimmed(kind: string)
    requires kind in {"message_start", "content_block_delta", "message_delta", "message_stop", "error", "text_delta"}
    ensures Trim(kind) == kind && kind != "" && Trim("") == ""
  {
    assert kind[0] in {'m', 'c', 'e', 't'} && kind[|kind| - 1] in {'t', 'a', 'p', 'r'};
    TrimmedIsFixed(kind);
    TrimmedIsFixed("");
  }

  /** However an event is named, it does what the server means: a text is text, a piece of anything else and
      an event of any other kind are ignored, and a problem ends the stream with its message. */
  lemma ServerEventsMean(e: ServerEvent, named: bool)
    ensures
      var signal := Classify(Arriving(e, named));
      match e
      case MessageStarted(id, model, role) => signal == Started(id, model, role)
      case TextPiece(text) => signal == if text == "" then Ignored else TextDelta(text)
      case OtherPiece(kind, _) => Trim(kind) != "text_delta" ==> signal == Ignored
      case StopReason(reason) => signal == if reason == "" then Ignored else StopDelta(reason)
      case MessageStopped => signal == MessageStop
      case Problem(message) => message != "" ==> signal == Fatal(message)
      case ErrorEvent => signal == Fatal("anthropic stream error")
      case Unknown(kind) =>
        Trim(kind) !in {"message_start", "content_block_delta", "message_delta", "message_stop", "error"} ==> signal == Ignored
  {
    hide Trim;
    KindsAreTrimmed(if e.Unknown? then "error" else KindOf(e));
    KindsAreTrimmed("text_delta");
  }

  // ---- Finish reasons, ids and models ----

  /** The finish reasons that a run sends, in order. */
  function FinishesSent(events: seq<StreamEvent>): seq<string> {
    if events == [] then []
    else (if events[0].Chunk? && events[0].finishReason != "" then [events[0].finishReason] else []) + FinishesSent(events[1..])
  }

  /** Those that are due: one for each stop reason, and "stop" at the end if there was none. */
  function FinishesDue(signals: seq<Signal>, given: bool): seq<string>
    decreases |signals|
  {
    if signals == [] then []
    else if signals[0].StopDelta? then [FinishReason(signals[0].reason)] + FinishesDue(signals[1..], true)
    else if signals[0].MessageStop? && !given then ["stop"] + FinishesDue(signals[1..], given)
    else FinishesDue(signals[1..], given)
  }

  /** The end of a turn is "stop", the use of a tool "tool_calls", and any other reason is passed on. */
  lemma FinishReasons(reason: string)
    ensures Trim(reason) == "" || Trim(reason) == "end_turn" ==> FinishReason(reason) == "stop"
    ensures Trim(reason) == "tool_use" ==> FinishReason(reason) == "tool_calls"
    ensures Trim(reason) !in {"", "end_turn", "tool_use"} ==> FinishReason(reason) == Trim(reason)
  {
    hide Trim;
  }

  lemma {:induction false} FinishesSentAppend(a: seq<StreamEvent>, b: seq<StreamEvent>)
    ensures FinishesSent(a + b) == FinishesSent(a) + FinishesSent(b)
  {
    if a == [] {
      assert a + b == b;
      assert [] + FinishesSent(b) == FinishesSent(b);
    } else {
      assert (a + b)[1..] == a[1..] + b;
      FinishesSentAppend(a[1..], b);
      var x := if a[0].Chunk? && a[0].finishReason != "" then [a[0].finishReason] else [];
      assert x + (FinishesSent(a[1..]) + FinishesSent(b)) == (x + FinishesSent(a[1..])) + FinishesSent(b);
    }
  }

  lemma PublishedFinishes(s: State, signal: Signal)
    ensures FinishesSent(Published(s, signal)) ==
            if signal.StopDelta? then [FinishReason(signal.reason)]
            else if signal.MessageStop? && !s.finishReasonEmitted then ["stop"] else []
    ensures Next(s, signal).finishReasonEmitted == (s.finishReasonEmitted || signal.StopDelta?)
  {
    hide Trim;
    var p := Published(s, signal);
    if p != [] {
      assert p[1..] == [];
    }
  }

  /** The finish reasons sent are exactly the ones that are due. */
  lemma {:induction false} FinishesFollowStops(s: State, signals: seq<Signal>, end: BodyEnd)
    ensures FinishesSent(Translate(s, signals, end)) == FinishesDue(Live(signals), s.finishReasonEmitted)
    decreases |signals|
  {
    hide Published, Next, FinishReason;
    if signals == [] {
      var failure := [Failure(EndFailure(end))];
      assert failure[1..] == [];
    } else {
      var signal := signals[0];
      PublishedFinishes(s, signal);
      if Terminal(signal) {
        assert Live(signals)[1..] == [];
      } else {
        assert Live(signals)[1..] == Live(signals[1..]);
        FinishesFollowStops(Next(s, signal), signals[1..], end);
        FinishesSentAppend(Published(s, signal), Translate(Next(s, signal), signals[1..], end));
      }
    }
  }

  /** The id and the model in force after some signals: the last announced ones that are not blank. */
  function IdAfter(signals: seq<Signal>, id: string): string
    decreases |signals|
  {
    if signals == [] then id
    else IdAfter(signals[1..], if signals[0].Started? && Trim(signals[0].id) != "" then signals[0].id else id)
  }

  function ModelAfter(signals: seq<Signal>, model: string): string
    decreases |signals|
  {
    if signals == [] then model
    else ModelAfter(signals[1..], if signals[0].Started? && Trim(signals[0].model) != "" then signals[0].model else model)
  }

  function StateAfter(s: State, signals: seq<Signal>): State
    decreases |signals|
  {
    if signals == [] then s else StateAfter(Next(s, signals[0]), signals[1..])
  }

  lemma {:induction false} ChunksCarryTheLastStart(s: State, signals: seq<Signal>, next: Signal)
    ensures
      var published := Published(StateAfter(s, signals), next);
      forall i :: 0 <= i < |published| && published[i].Chunk? ==>
        published[i].id == IdAfter(signals, s.id) && published[i].model == ModelAfter(signals, s.model)
    decreases |signals|
  {
    hide Trim, FinishReason;
    if signals != [] {
      var later := Next(s, signals[0]);
      ChunksCarryTheLastStart(later, signals[1..], next);
      assert StateAfter(s, signals) == StateAfter(later, signals[1..]);
      assert IdAfter(signals, s.id) == IdAfter(signals[1..], later.id);
      assert ModelAfter(signals, s.model) == ModelAfter(signals[1..], later.model);
    }
  }

  /** A run goes on from where some of its signals, none of which ends it, have led. */
  lemma {:induction false} TranslateInParts(s: State, signals: seq<Signal>, rest: seq<Signal>, end: BodyEnd) returns (front: seq<StreamEvent>)
    requires forall i :: 0 <= i < |signals| ==> !Terminal(signals[i])
    ensures Translate(s, signals + rest, end) == front + Translate(StateAfter(s, signals), rest, end)
    decreases |signals|
  {
    hide Published, Next;
    if signals == [] {
      assert signals + rest == rest;
      front := [];
      assert front + Translate(s, rest, end) == Translate(s, rest, end);
    } else {
      assert (signals + rest)[1..] == signals[1..] + rest;
      var back := TranslateInParts(Next(s, signals[0]), signals[1..], rest, end);
      front := Published(s, signals[0]) + back;
      assert Published(s, signals[0]) + (back + Translate(StateAfter(s, signals), rest, end))
          == front + Translate(StateAfter(s, signals), rest, end);
    }
  }

  /** A body that ends before message_stop ends the stream with an error: the reader's own, or one that says so. */
  lemma UnfinishedBodies(s: State, error: string)
    ensures Translate(s, [], Eof) == [Failure("upstream stream ended before message_stop")]
    ensures Translate(s, [], ReadError(error)) == [Failure(error)]
  {
  }
}
