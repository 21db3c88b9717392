/** The chat service between the router and the handler (internal/service/chat/service.go). */
module ChatService {
  import opened Wrappers
  import opened Tokens
  import opened Provider

  datatype CompletionRequest = CompletionRequest(model: string, messages: seq<ChatMessage>, stream: bool)

  datatype CompletionResponse = CompletionResponse(
    id: string, kind: string, created: int, model: string, choices: seq<Choice>, usage: Usage)

  datatype Choice = Choice(index: int, message: ChatMessage, finishReason: string)

  datatype ChunkChoice = ChunkChoice(index: int, role: string, content: string, finishReason: string)

  datatype CompletionChunk = CompletionChunk(id: string, kind: string, created: int, model: string, choices: seq<ChunkChoice>)

  datatype CompletionEvent = Piece(chunk: CompletionChunk) | Broken(error: Error)

  // ---- Text ----

  /** The text of the first n choices of a provider's chunk. */
  function SpokenText(choices: seq<ChatChoice>, n: nat): string
    requires n <= |choices|
  {
    if n == 0 then "" else SpokenText(choices, n - 1) + choices[n - 1].content
  }

  /** The text of the chunks among the first n events of a provider's stream. */
  function StreamText(events: seq<StreamEvent>, n: nat): string
    requires n <= |events|
  {
    if n == 0 then ""
    else
      StreamText(events, n - 1)
      + match events[n - 1]
        case Chunk(chunk) => SpokenText(chunk.choices, |chunk.choices|)
        case Failure(_) => ""
  }

  /** The text of the first n choices of a client's chunk. */
  function DeltaText(choices: seq<ChunkChoice>, n: nat): string
    requires n <= |choices|
  {
    if n == 0 then "" else DeltaText(choices, n - 1) + choices[n - 1].content
  }

  lemma {:induction false} DeltaTextPrefix(a: seq<ChunkChoice>, b: seq<ChunkChoice>, n: nat)
    requires n <= |a|
    ensures DeltaText(a + b, n) == DeltaText(a, n)
  {
    if n > 0 {
      DeltaTextPrefix(a, b, n - 1);
    }
  }

  /** The text of a chunk is that of its choices, in order. */
  lemma DeltaTextAppends(choices: seq<ChunkChoice>, c: ChunkChoice)
    ensures DeltaText(choices + [c], |choices| + 1) == DeltaText(choices, |choices|) + c.content
    ensures DeltaText([], 0) == ""
  {
    DeltaTextPrefix(choices, [c], |choices|);
  }

  // ---- Conversion ----

  function ToChunkChoice(c: ChatChoice): ChunkChoice {
    ChunkChoice(c.index, c.role, c.content, c.finishReason)
  }

  function ChunkChoicesOf(choices: seq<ChatChoice>): (r: seq<ChunkChoice>)
    ensures |r| == |choices|
  {
    seq(|choices|, i requires 0 <= i < |choices| => ToChunkChoice(choices[i]))
  }

  function CompletionChunkOf(c: ChatChunk): CompletionChunk {
    CompletionChunk(c.id, c.kind, c.created, c.model, ChunkChoicesOf(c.choices))
  }

  /** Conversion keeps the text. */
  lemma {:induction false} ConversionKeepsText(choices: seq<ChatChoice>, n: nat)
    requires n <= |choices|
    ensures DeltaText(ChunkChoicesOf(choices), n) == SpokenText(choices, n)
  {
    if n > 0 {
      ConversionKeepsText(choices, n - 1);
    }
  }

  method ToChunkChoices(choices: seq<ChatChoice>) returns (r: seq<ChunkChoice>)
    ensures r == ChunkChoicesOf(choices) && |r| == |choices|
    ensures forall i :: 0 <= i < |choices| ==>
              r[i] == ChunkChoice(choices[i].index, choices[i].role, choices[i].content, choices[i].finishReason)
  {
    r := [];
    for i := 0 to |choices|
      invariant |r| == i && forall j :: 0 <= j < i ==> r[j] == ToChunkChoice(choices[j])
    {
      var choice := choices[i];
      var converted := ChunkChoice(choice.index, "", "", choice.finishReason);
      if choice.role != "" {
        converted := converted.(role := choice.role);
      }
      if choice.content != "" {
        converted := converted.(content := choice.content);
      }
      r := r + [converted];
    }
  }

  /** The client's response is the provider's, choice by choice. */
  predicate Converts(answer: Response, r: CompletionResponse) {
    && r.(choices := []) == CompletionResponse(answer.id, answer.kind, answer.created, answer.model, [], answer.usage)
    && |r.choices| == |answer.choices|
    && forall i :: 0 <= i < |answer.choices| ==>
         r.choices[i] == Choice(answer.choices[i].index, ChatMessage(answer.choices[i].role, answer.choices[i].content),
                                answer.choices[i].finishReason)
  }

  method ToChoices(choices: seq<ChatChoice>) returns (r: seq<Choice>)
    ensures |r| == |choices|
    ensures forall i :: 0 <= i < |choices| ==>
              r[i] == Choice(choices[i].index, ChatMessage(choices[i].role, choices[i].content), choices[i].finishReason)
  {
    r := [];
    for i := 0 to |choices|
      invariant |r| == i
      invariant forall j :: 0 <= j < i ==>
                  r[j] == Choice(choices[j].index, ChatMessage(choices[j].role, choices[j].content), choices[j].finishReason)
    {
      r := r + [Choice(choices[i].index, ChatMessage(choices[i].role, choices[i].content), choices[i].finishReason)];
    }
  }

  // ---- The event stream ----

  /** Whether the request's context is found done when event i is handled. */
  type Cancelled = nat -> bool

  /** The event from i on at which the stream ends, or the number of events. */
  function LastEvent(events: seq<StreamEvent>, cancelled: Cancelled, i: nat): (p: nat)
    requires i <= |events|
    ensures i <= p <= |events|
    ensures forall j :: i <= j < p ==> events[j].Chunk? && !cancelled(j)
    ensures p < |events| ==> events[p].Failure? || cancelled(p)
    decreases |events| - i
  {
    if i == |events| || events[i].Failure? || cancelled(i) then i else LastEvent(events, cancelled, i + 1)
  }

  /** The first n events, all chunks, as the client gets them. */
  function Pieces(events: seq<StreamEvent>, n: nat): (r: seq<CompletionEvent>)
    requires n <= |events| && forall i :: 0 <= i < n ==> events[i].Chunk?
    ensures |r| == n
  {
    seq(n, i requires 0 <= i < n => Piece(CompletionChunkOf(events[i].chunk)))
  }

  /** What the service sends on. */
  function Served(events: seq<StreamEvent>, cancelled: Cancelled): seq<CompletionEvent> {
    var p := LastEvent(events, cancelled, 0);
    Pieces(events, p) + if p < |events| && !cancelled(p) then [Broken(events[p].error)] else []
  }

  /** Without cancellation, that is the stream up to its first error, chunk by chunk. */
  lemma ServedUncancelled(events: seq<StreamEvent>, cancelled: Cancelled)
    requires forall i :: 0 <= i < |events| ==> !cancelled(i)
    ensures
      var k := FirstError(events, 0);
      Served(events, cancelled) == Pieces(events, k) + if k < |events| then [Broken(events[k].error)] else []
  {
    hide Pieces;
    SameEnd(events, cancelled);
  }

  lemma SameEnd(events: seq<StreamEvent>, cancelled: Cancelled)
    requires forall i :: 0 <= i < |events| ==> !cancelled(i)
    ensures LastEvent(events, cancelled, 0) == FirstError(events, 0)
  {
  }

  /** A stream that was already cut at its first error is served whole. */
  lemma CutTwice(events: seq<StreamEvent>)
    ensures FirstError(UpToFirstError(events), 0) == FirstError(events, 0)
    ensures UpToFirstError(UpToFirstError(events)) == UpToFirstError(events)
  {
  }

  datatype ProviderRequest = ProviderRequest(model: string, messages: seq<ChatMessage>, stream: bool)

  class Service {
    const defaultModel: string

    constructor (defaultModel: string)
      ensures this.defaultModel == defaultModel
    {
      this.defaultModel := defaultModel;
    }

    /** The request as the provider gets it, or nothing when there are no messages. */
    function Prepared(req: CompletionRequest): ProviderRequest {
      ProviderRequest(if req.model == "" then defaultModel else req.model, req.messages, req.stream)
    }

    method PrepareProviderRequest(req: CompletionRequest) returns (r: Result<ProviderRequest, Error>)
      ensures r == if req.messages == [] then Err(InvalidRequest) else Ok(Prepared(req))
      ensures r.Ok? ==> r.value.messages == req.messages && r.value.stream == req.stream
      ensures r.Ok? ==> r.value.model == if req.model != "" then req.model else defaultModel
    {
      if |req.messages| == 0 {
        return Err(InvalidRequest);
      }
      var model := req.model;
      if model == "" {
        model := defaultModel;
      }
      var messages := [];
      for i := 0 to |req.messages|
        invariant messages == req.messages[..i]
      {
        messages := messages + [ChatMessage(req.messages[i].role, req.messages[i].content)];
      }
      assert req.messages[..|req.messages|] == req.messages;
      return Ok(ProviderRequest(model, messages, req.stream));
    }

    method CreateCompletion(req: CompletionRequest, provider: ProviderRequest -> Result<Response, Error>)
      returns (r: Result<CompletionResponse, Error>)
      ensures req.messages == [] ==> r == Err(InvalidRequest)
      ensures req.messages != [] ==>
                match provider(Prepared(req))
                case Err(e) => r == Err(e)
                case Ok(answer) =>
                  && r.Ok? && Converts(answer, r.value)
                  && r.value.id == answer.id && r.value.kind == answer.kind && r.value.created == answer.created
                  && r.value.model == answer.model && r.value.usage == answer.usage && |r.value.choices| == |answer.choices|
                  && forall i :: 0 <= i < |answer.choices| ==>
                       && r.value.choices[i].index == answer.choices[i].index && r.value.choices[i].finishReason == answer.choices[i].finishReason
                       && r.value.choices[i].message.role == answer.choices[i].role && r.value.choices[i].message.content == answer.choices[i].content
    {
      var prepared := PrepareProviderRequest(req);
      if prepared.Err? {
        return Err(prepared.error);
      }
      var answer := provider(prepared.value);
      if answer.Err? {
        return Err(answer.error);
      }
      var choices := ToChoices(answer.value.choices);
      return Ok(CompletionResponse(answer.value.id, answer.value.kind, answer.value.created, answer.value.model, choices, answer.value.usage));
    }

    /** One event: a finished context stops the stream without a word, an error is sent and stops it, a
        chunk is converted and sent. */
    method HandleProviderStreamEvent(event: StreamEvent, cancelled: bool) returns (sent: seq<CompletionEvent>, shouldStop: bool)
      ensures shouldStop <==> cancelled || event.Failure?
      ensures sent == if cancelled then [] else match event
                                                case Failure(e) => [Broken(e)]
                                                case Chunk(chunk) => [Piece(CompletionChunkOf(chunk))]
      ensures forall i :: 0 <= i < |sent| && event.Chunk? ==>
                && sent[i].Piece? && |sent[i].chunk.choices| == |event.chunk.choices|
                && sent[i].chunk.(choices := []) == CompletionChunk(event.chunk.id, event.chunk.kind, event.chunk.created, event.chunk.model, [])
    {
      if cancelled {
        return [], true;
      }
      match event {
        case Failure(e) =>
          return [Broken(e)], true;
        case Chunk(chunk) =>
          var choices := ToChunkChoices(chunk.choices);
          return [Piece(CompletionChunk(chunk.id, chunk.kind, chunk.created, chunk.model, choices))], false;
      }
    }

    method StreamCompletion(req: CompletionRequest, provider: ProviderRequest -> Result<seq<StreamEvent>, Error>, cancelled: Cancelled)
      returns (r: Result<seq<CompletionEvent>, Error>)
      ensures req.messages == [] ==> r == Err(InvalidRequest)
      ensures req.messages != [] ==>
                match provider(Prepared(req))
                case Err(e) => r == Err(e)
                case Ok(events) => r == Ok(Served(events, cancelled))
    {
      var prepared := PrepareProviderRequest(req);
      if prepared.Err? {
        return Err(prepared.error);
      }
      var answer := provider(prepared.value);
      if answer.Err? {
        return Err(answer.error);
      }
      var events := answer.value;
      var served := [];
      ghost var p := LastEvent(events, cancelled, 0);
      for i := 0 to |events|
        invariant i <= p
        invariant served == Pieces(events, i)
      {
        var sent, shouldStop := HandleProviderStreamEvent(events[i], cancelled(i));
        served := served + sent;
        if shouldStop {
          assert p == i;
          return Ok(served);
        }
      }
      assert p == |events|;
      assert served + [] == served;
      return Ok(served);
    }
  }
}
