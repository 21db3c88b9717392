/** A stream from the backend's events to the client's frames and the bill
    (internal/provider/router/chat.go, internal/service/chat/service.go, internal/api/handlers/chat.go,
    internal/service/governance/service.go). */
module Pipeline {
  import opened Wrappers
  import opened Provider
  import opened Health
  import opened Ranking
  import opened Fallback
  import opened Text
  import opened Tokens
  import opened ChatService
  import opened Handlers
  import opened AdapterCalls
  import Router
  import RouterLaws
  import Governance
  import GovernanceStore
  import Admission
  import Ledger
  import RedisLimiter
  import Sse
  import AnthropicStream
  import AnthropicWire

  lemma {:induction false} PiecesText(events: seq<StreamEvent>, n: nat, rest: seq<CompletionEvent>, m: nat)
    requires m <= n <= |events| && forall i :: 0 <= i < n ==> events[i].Chunk?
    ensures EventText(Pieces(events, n) + rest, m) == StreamText(events, m)
  {
    hide DeltaText, SpokenText;
    if m > 0 {
      PiecesText(events, n, rest, m - 1);
      var chunk := events[m - 1].chunk;
      assert (Pieces(events, n) + rest)[m - 1] == Piece(CompletionChunkOf(chunk));
      ConversionKeepsText(chunk.choices, |chunk.choices|);
    }
  }

  predicate NeverCancelled(turns: Turns, cancelled: Cancelled, n: nat) {
    forall i :: 0 <= i < n ==> turns(i).stop.Deliver? && !cancelled(i)
  }

  /** What arrives at the handler when nothing is cancelled: the backend's chunks up to its first error,
      and that error. */
  lemma ServedWhole(name: string, sent: seq<StreamEvent>, turns: Turns, cancelled: Cancelled)
    requires sent != [] && sent[0].Chunk? && NeverCancelled(turns, cancelled, |sent|)
    ensures
      var k := FirstError(sent, 0);
      Served(Forwarded(sent, turns), cancelled) == Pieces(sent, k) + if k < |sent| then [Broken(sent[k].error)] else []
  {
    hide Forwarded, Served, Interrupted;
    var k, f := FirstError(sent, 0), UpToFirstError(sent);
    RouterLaws.CommittedStream(name, sent, turns);
    ServedUncancelled(f, cancelled);
    CutTwice(sent);
    assert Pieces(f, k) == Pieces(sent, k);
  }

  lemma StoppedAtError(events: seq<CompletionEvent>, writes: Writes, k: nat)
    requires k <= |events| && (forall i :: 0 <= i < k ==> events[i].Piece?)
    requires forall i :: 0 <= i <= |events| ==> writes(i)
    requires k < |events| ==> events[k].Broken?
    ensures Stopped(events, writes, 0) == k
  {
  }

  /** End to end, without cancellation and without a failed write: the client is sent the chunks of the
      backend up to its first error, with their text unchanged; that text is what is billed; the end
      marker follows exactly when there was no error, and then the request is completed. */
  lemma EndToEnd(name: string, sent: seq<StreamEvent>, turns: Turns, cancelled: Cancelled, writes: Writes)
    requires sent != [] && sent[0].Chunk? && NeverCancelled(turns, cancelled, |sent|)
    requires forall i :: 0 <= i <= |sent| ==> writes(i)
    ensures
      var k := FirstError(sent, 0);
      var events := Served(Forwarded(sent, turns), cancelled);
      var frames := StreamFrames(events, writes);
      && |frames| == (if k == |sent| then k + 1 else k)
      && (forall i :: 0 <= i < k ==> frames[i] == Data(CompletionChunkOf(sent[i].chunk)))
      && (k == |sent| ==> frames[k] == Done)
      && FrameText(frames, |frames|) == StreamText(sent, k)
      && EventText(events, Observed(events, writes)) == StreamText(sent, k)
      && (Completes(events, writes) <==> k == |sent|)
  {
    hide Forwarded, Served, StreamFrames, Observed, Completes, StreamText, EventText, FrameText;
    var k, events := FirstError(sent, 0), Served(Forwarded(sent, turns), cancelled);
    var rest := if k < |sent| then [Broken(sent[k].error)] else [];
    ServedWhole(name, sent, turns, cancelled);
    assert events == Pieces(sent, k) + rest;
    StoppedAtError(events, writes, k);
    StreamEnds(events, writes);
    SentIsObserved(events, writes);
    PiecesText(sent, k, rest, k);
    assert k > 0;
  }

  /** What is billed for an attempt, at the ending of the stream it was begun for. */
  predicate BilledAs(row: Ledger.Row, completed: bool, promptTokens: int, text: string) {
    && row.status == (if completed then "succeeded" else "failed")
    && row.promptTokens == promptTokens && row.completionTokens == Words(text)
    && row.totalTokens == promptTokens + Words(text)
  }

  /** What a request starts from: the marks, the ledger, and who calls. */
  datatype Start = Start(history: seq<Mark>, attempts: seq<Ledger.Row>, caller: Caller, text: string)

  /** The candidates of a request for a model. */
  function CandidatesFor(backends: seq<Backend>, limits: Limits, model: string, h: seq<Mark>, now: Time): seq<Backend> {
    CandidatesOf(RankedBackends(backends, model), h, limits, now)
  }

  /** The error of a request that no candidate answers. */
  function NoAnswer<T>(cands: seq<Backend>, script: Script<T>, configured: nat): Error
    requires var k := Deciding(cands, script, 0); k < |cands| ==> !script(k, cands[k]).outcome.Answered?
  {
    var k := Deciding(cands, script, 0);
    if cands == [] then NoCandidatesError(configured)
    else if k == |cands| then script(k - 1, cands[k - 1]).outcome.error
    else script(k, cands[k]).outcome.error
  }

  /** It is the error of an attempt that could not be accounted for, or else that of the last candidate; without
      candidates it says whether there are backends at all. */
  lemma NoAnswerMeans<T>(cands: seq<Backend>, script: Script<T>, configured: nat, k: nat)
    requires k <= |cands| && forall i :: 0 <= i < k ==> script(i, cands[i]).outcome.Refused?
    requires k < |cands| ==> script(k, cands[k]).outcome.Unaccounted?
    ensures
      Deciding(cands, script, 0) == k
      && NoAnswer(cands, script, configured) ==
         if cands == [] then Other(if configured > 0 then "no provider backends matched routing policy" else "no provider backends configured")
         else if k < |cands| then script(k, cands[k]).outcome.error
         else script(|cands| - 1, cands[|cands| - 1]).outcome.error
  {
  }

  /** How a streamed request ends: the first candidate in order whose stream opens with a chunk wins, its
      events up to the first error make the frames, and the attempt that it was reached by is billed for
      the text that was observed; or there is one error body. */
  ghost predicate StreamedAs(backends: seq<Backend>, limits: Limits, start: Start, tracker: Governance.RequestTracker,
                             req: CompletionRequest, model: string, now: Time, adapters: Adapters, turns: Turns,
                             cancelled: Cancelled, writes: Writes, k: Governance.Settling, frames: seq<Frame>)
    reads tracker, tracker.store
  {
    var cands := CandidatesFor(backends, limits, model, start.history, now);
    var awaited := AwaitedScript(OpenScript(tracker.store.tenants, start.attempts, start.caller, cands, adapters));
    var d := Deciding(cands, awaited, 0);
    if req.messages == [] then frames == [ErrorBody(400, "messages are required")] && tracker.streamCompletion == start.text
    else if d < |cands| && awaited(d, cands[d]).outcome.Answered? then
      var a := adapters(d, cands[d]);
      var events := Served(Forwarded(a.stream.events, turns), cancelled);
      && frames == StreamFrames(events, writes)
      && tracker.streamCompletion == start.text + EventText(events, Observed(events, writes))
      && tracker.model == EventModel(events, Observed(events, writes), start.caller.model)
      && AttemptOf(tracker.store.attempts, tracker.latestAttemptId, start.caller, cands[d])
      && (SettlementWorks(tracker, Completes(events, writes), k) ==>
            BilledAs(tracker.store.attempts[tracker.latestAttemptId - 1], Completes(events, writes),
                     if Completes(events, writes) then PromptTokens(req.messages) else a.call.promptTokens, tracker.streamCompletion))
    else frames == [Handlers.BodyOf(NoAnswer(cands, awaited, |backends|))] && tracker.streamCompletion == start.text
  }

  /** A whole streamed request through router, adapters, service and handler. In all runs it is ended once,
      and completed only when its end marker was written. */
  method StreamRequest(router: Router.Router, service: Service, handler: ChatHandler, tracker: Governance.RequestTracker,
                       req: CompletionRequest, now: Time, adapters: Adapters, turns: Turns,
                       cancelled: Cancelled, writes: Writes, k: Governance.Settling)
    returns (frames: seq<Frame>)
    requires router.Valid() && tracker.Valid() && tracker.stream
    modifies router, handler, tracker`model, tracker`streamCompletion, tracker`endings, tracker`latestAttemptId,
             tracker`latestAttemptTok, tracker.store, tracker.redis
    ensures router.Valid() && tracker.Valid() && WellFormed(frames)
    ensures req.messages == [] ==> router.history == old(router.history)
    ensures StreamedAs(router.backends, router.limits,
                       Start(old(router.history), old(tracker.store.attempts), old(CallerOf(tracker)), old(tracker.streamCompletion)),
                       tracker, req, service.Prepared(req).model, now, adapters, turns, cancelled, writes, k, frames)
    ensures tracker.endings == old(tracker.endings)
              + [if frames != [] && frames[|frames| - 1].Done? then Governance.CompletingStream else Governance.Failing]
  {
    hide CandidatesFor, Forwarded, StreamFrames, Observed, Completes, EventText, EventModel, Served, Handlers.BodyOf, Stopped, NoAnswer,
         AttemptOf, SettlementWorks, Billed, RecordedState, BilledAs, OpenScript, AwaitedScript;
    var prepared := service.PrepareProviderRequest(req);
    if prepared.Err? {
      frames := handler.StreamCompletion(tracker, req, true, Err(prepared.error), writes, k);
      InvalidBody();
      return;
    }
    var answer := RoutedStream(router, tracker, prepared.value.model, now, adapters, turns);
    ghost var attempts, requests := tracker.store.attempts, tracker.store.requests;
    var served := service.StreamCompletion(req, (_: ProviderRequest) => answer, cancelled);
    frames := handler.StreamCompletion(tracker, req, true, served, writes, k);
    if served.Err? {
      BodyIsBody(served.error);
    } else {
      BodiesAndFramesNeverMix(served.value, writes);
      ghost var caller := old(CallerOf(tracker));
      ghost var cands := CandidatesFor(router.backends, router.limits, service.Prepared(req).model, old(router.history), now);
      ghost var awaited := AwaitedScript(OpenScript(tracker.store.tenants, old(tracker.store.attempts), caller, cands, adapters));
      BillReaches(tracker, caller, req, Completes(served.value, writes), k, requests, attempts, cands[Deciding(cands, awaited, 0)]);
    }
  }

  /** A stream request through the router and the adapters that it calls: the first candidate whose stream
      opens with a chunk wins, and the tracker's latest attempt is the one that it was reached by. */
  method RoutedStream(router: Router.Router, tracker: Governance.RequestTracker, model: string, now: Time, adapters: Adapters, turns: Turns)
    returns (answer: Result<seq<StreamEvent>, Error>)
    requires router.Valid()
    modifies router, tracker`latestAttemptId, tracker`latestAttemptTok, tracker.store
    ensures router.Valid()
    ensures
      var cands := CandidatesFor(router.backends, router.limits, model, old(router.history), now);
      var caller := CallerOf(tracker);
      var awaited := AwaitedScript(OpenScript(tracker.store.tenants, old(tracker.store.attempts), caller, cands, adapters));
      var d := Deciding(cands, awaited, 0);
      if d < |cands| && awaited(d, cands[d]).outcome.Answered? then
        && answer == Ok(Forwarded(adapters(d, cands[d]).stream.events, turns))
        && tracker.latestAttemptTok == adapters(d, cands[d]).call.promptTokens
        && AttemptOf(tracker.store.attempts, tracker.latestAttemptId, caller, cands[d])
      else answer == Err(NoAnswer(cands, awaited, |router.backends|))
  {
    hide RankedBackends, CandidatesOf, SkippedOf, Forwarded, ForwardingMarks, InterruptionEvents, SuccessEvents, RefusedEvents,
         RefusedMarks, SkippedEvents, HistoryAt, AttemptOf, AwaitedScript, OpenScript, RowsBeforeOpen;
    var cands, _ := router.Candidates(model, now);
    var script := OpenScript(tracker.store.tenants, tracker.store.attempts, CallerOf(tracker), cands, adapters);
    OpenStreams(tracker, cands, adapters);
    var reported, called, cancelled;
    answer, reported, called, cancelled := router.StreamChatCompletion(model, now, script, turns);
  }

  /** The bill of an ending reaches the attempt that the winner was reached by, whatever it was settled as
      before. */
  lemma BillReaches(tracker: Governance.RequestTracker, caller: Caller, req: CompletionRequest, completed: bool, k: Governance.Settling,
                    requests: seq<Ledger.Row>, attempts: seq<Ledger.Row>, b: Backend)
    requires tracker.stream && AttemptOf(attempts, tracker.latestAttemptId, caller, b)
    requires Billed(tracker, req, completed, k, requests, attempts)
    ensures AttemptOf(tracker.store.attempts, tracker.latestAttemptId, caller, b)
    ensures SettlementWorks(tracker, completed, k) ==>
              BilledAs(tracker.store.attempts[tracker.latestAttemptId - 1], completed,
                       if completed then PromptTokens(req.messages) else tracker.latestAttemptTok, tracker.streamCompletion)
  {
    hide Words, PromptTokens, Trim, RedisLimiter.RecordingFails;
    BilledKeepsRows(tracker, req, completed, k, requests, attempts);
  }

  /** How a request ends that is not streamed: the first answer in candidate order, converted, is the body
      and what is settled; the ledger is what the calls up to it have left. */
  ghost predicate AnsweredAs(backends: seq<Backend>, limits: Limits, start: Start, tracker: Governance.RequestTracker,
                             req: CompletionRequest, model: string, now: Time, answers: Answers, k: Governance.Settling,
                             requests: seq<Ledger.Row>, frames: seq<Frame>)
    reads tracker, tracker.store
  {
    var cands := CandidatesFor(backends, limits, model, start.history, now);
    var tenants := tracker.store.tenants;
    var script := AnswerScript(tenants, start.attempts, start.caller, cands, answers);
    var d := Deciding(cands, script, 0);
    if req.messages == [] then frames == [ErrorBody(400, "messages are required")] && tracker.store.attempts == start.attempts
    else
      && tracker.store.attempts == RowsBeforeAnswer(tenants, start.attempts, start.caller, cands, answers, if d < |cands| then d + 1 else d)
      && if d < |cands| && script(d, cands[d]).outcome.Answered? then
           exists resp :: Converts(script(d, cands[d]).outcome.value, resp) && Settles(tracker, req, resp, k, requests, frames)
         else frames == [Handlers.BodyOf(NoAnswer(cands, script, |backends|))]
  }

  /** The answer is the body and its usage is what the request is settled at, if that works. */
  predicate Settles(tracker: Governance.RequestTracker, req: CompletionRequest, resp: CompletionResponse, k: Governance.Settling,
                    requests: seq<Ledger.Row>, frames: seq<Frame>)
    reads tracker, tracker.store
  {
    var (prompt, completion, total) := tracker.UsageOf(req, resp);
    var settles := !tracker.RecordingFails(completion, k.counting) && !k.requestFails;
    && frames == [if settles then AnswerBody(resp) else ErrorBody(500, INTERNAL_SERVER_ERROR)]
    && tracker.store.requests == (if settles then
         GovernanceStore.Updated(requests, tracker.recordId, Ledger.Settlement(resp.model, "succeeded", prompt, completion, total))
         else requests)
  }

  /** A request that is not streamed, through router, adapters, service and handler. */
  method PlainRequest(router: Router.Router, service: Service, handler: ChatHandler, tracker: Governance.RequestTracker,
                      req: CompletionRequest, now: Time, answers: Answers, k: Governance.Settling)
    returns (frames: seq<Frame>)
    requires router.Valid() && tracker.Valid() && !tracker.stream
    modifies router, tracker`endings, tracker`latestAttemptId, tracker`latestAttemptTok, tracker.store, tracker.redis
    ensures router.Valid() && tracker.Valid() && |frames| == 1 && IsBody(frames[0])
    ensures req.messages == [] ==> router.history == old(router.history)
    ensures AnsweredAs(router.backends, router.limits,
                       Start(old(router.history), old(tracker.store.attempts), CallerOf(tracker), tracker.streamCompletion),
                       tracker, req, service.Prepared(req).model, now, answers, k, old(tracker.store.requests), frames)
    ensures tracker.endings == old(tracker.endings) + [Governance.Failing]
         || tracker.endings == old(tracker.endings) + [Governance.CompletingNonStream]
    ensures frames[0].AnswerBody? && 1 <= tracker.recordId <= |tracker.store.requests| ==>
              var row, usage, choices := tracker.store.requests[tracker.recordId - 1], frames[0].response.usage, frames[0].response.choices;
              && row.promptTokens == (if usage.promptTokens != 0 then usage.promptTokens else PromptTokens(req.messages))
              && (usage.totalTokens != 0 ==> row.completionTokens == usage.completionTokens && row.totalTokens == usage.totalTokens)
              && (usage.totalTokens == 0 ==>
                    && row.completionTokens == Words(Governance.JoinedContent(choices, |choices|))
                    && row.totalTokens == row.promptTokens + row.completionTokens)
  {
    hide Governance.JoinedContent, Governance.RequestTracker.UsageOf, CandidatesFor, Handlers.BodyOf, NoAnswer, AnswerScript, RowsBeforeAnswer, GovernanceStore.Updated,
         RedisLimiter.Recorded, RedisLimiter.RecordingFails, Words, PromptTokens, Converts;
    var prepared := service.PrepareProviderRequest(req);
    if prepared.Err? {
      frames := handler.HandleNonStreamCompletion(tracker, req, Err(prepared.error), k);
      InvalidBody();
      return;
    }
    var provided := RoutedAnswer(router, tracker, prepared.value.model, now, answers);
    var answer := service.CreateCompletion(req, (_: ProviderRequest) => provided);
    if answer.Err? {
      BodyIsBody(answer.error);
    }
    frames := handler.HandleNonStreamCompletion(tracker, req, answer, k);
    if answer.Ok? {
      assert Settles(tracker, req, answer.value, k, old(tracker.store.requests), frames);
    }
  }

  /** A create request through the router and the adapters that it calls: the first answer in candidate
      order, and the ledger that the calls leave. */
  method RoutedAnswer(router: Router.Router, tracker: Governance.RequestTracker, model: string, now: Time, answers: Answers)
    returns (answer: Result<Response, Error>)
    requires router.Valid()
    modifies router, tracker`latestAttemptId, tracker`latestAttemptTok, tracker.store
    ensures router.Valid() && tracker.store.requests == old(tracker.store.requests)
    ensures
      var cands := CandidatesFor(router.backends, router.limits, model, old(router.history), now);
      var rows, tenants, caller := old(tracker.store.attempts), tracker.store.tenants, CallerOf(tracker);
      var script := AnswerScript(tenants, rows, caller, cands, answers);
      var d := Deciding(cands, script, 0);
      && tracker.store.attempts == RowsBeforeAnswer(tenants, rows, caller, cands, answers, if d < |cands| then d + 1 else d)
      && answer == if d < |cands| && script(d, cands[d]).outcome.Answered? then Ok(script(d, cands[d]).outcome.value)
                   else Err(NoAnswer(cands, script, |router.backends|))
  {
    hide RankedBackends, CandidatesOf, SkippedOf, SuccessEvents, RefusedEvents, RefusedMarks, SkippedEvents, HistoryAt,
         AnswerScript, RowsBeforeAnswer;
    var cands, _ := router.Candidates(model, now);
    var script := AnswerScript(tracker.store.tenants, tracker.store.attempts, CallerOf(tracker), cands, answers);
    AskAll(tracker, cands, answers);
    var reported;
    answer, reported := router.CreateChatCompletion(model, now, script);
  }

  /** The request body: decoded, or not. */
  datatype Body = TooLarge | Malformed | Decoded(req: CompletionRequest)

  function RejectionBody(e: Governance.BeginError): Frame {
    match e
    case PrincipalNotFound => ErrorBody(500, INTERNAL_SERVER_ERROR)
    case Rejected(RateLimitExceeded) => GovernanceBody(RateLimitExceeded)
    case Rejected(TokenLimitExceeded) => GovernanceBody(TokenLimitExceeded)
    case Rejected(BudgetExceeded) => GovernanceBody(BudgetExceeded)
    case Rejected(StoreFailed) => ErrorBody(500, INTERNAL_SERVER_ERROR)
  }

  /** A response is one JSON body, or data frames with at most one end marker, which is last. */
  predicate WellFormed(frames: seq<Frame>) {
    && (forall i :: 0 <= i < |frames| && IsBody(frames[i]) ==> |frames| == 1)
    && (forall i :: 0 <= i < |frames| && frames[i].Done? ==> i == |frames| - 1 && i > 0)
  }

  /** A whole request: decoded, admitted, and then answered at once or as a stream. A request that is
      turned away, on whichever path, costs no backend anything and has no tracker; an admitted one has
      its row in the request table, ends once, and is answered as StreamedAs or AnsweredAs say. */
  method CreateCompletion(governance: Governance.Service, router: Router.Router, service: Service, handler: ChatHandler,
                          caller: Option<GovernanceStore.Principal>, requestId: string, body: Body, now: Time, wire: Governance.Wire,
                          failing: set<GovernanceStore.Statement>, answers: Answers, adapters: Adapters,
                          turns: Turns, cancelled: Cancelled, writes: Writes, k: Governance.Settling)
    returns (frames: seq<Frame>, tracker: Governance.RequestTracker?)
    requires router.Valid() && governance.Valid()
    modifies router, handler, governance.store, governance.redis
    ensures router.Valid() && governance.Valid() && WellFormed(frames)
    ensures body.TooLarge? ==> frames == [ErrorBody(413, "request body too large")] && tracker == null
    ensures body.Malformed? ==> frames == [ErrorBody(400, "invalid request body")] && tracker == null
    ensures body.Decoded? && caller.None? ==> frames == [ErrorBody(500, INTERNAL_SERVER_ERROR)] && tracker == null
    ensures tracker == null ==> router.history == old(router.history) && governance.store.attempts == old(governance.store.attempts)
    ensures body.Decoded? && caller.Some? ==>
              var m := Governance.RequestMetadata(requestId, body.req.model, body.req.stream, body.req.messages);
              var turned := old(governance.Turned(caller.value, m, now, wire, failing));
              var rows := if old(governance.AddsRow(caller.value, m, now, wire, failing))
                          then [GovernanceStore.RowOf(governance.RequestInput(caller.value, m, now))] else [];
              var requests := old(governance.store.requests) + rows;
              if turned.Some? then
                frames == [RejectionBody(Governance.Rejected(turned.value))] && tracker == null && governance.store.requests == requests
              else
                var start := Start(old(router.history), old(governance.store.attempts), Caller(caller.value, requestId, body.req.model), "");
                var model := service.Prepared(body.req).model;
                && tracker != null && fresh(tracker) && tracker.store == governance.store && tracker.recordId == |requests|
                && |tracker.endings| == 1
                && if body.req.stream then
                     && StreamedAs(router.backends, router.limits, start, tracker, body.req, model, now, adapters, turns,
                                   cancelled, writes, k, frames)
                     && (tracker.endings[0].CompletingStream? <==> frames != [] && frames[|frames| - 1].Done?)
                   else AnsweredAs(router.backends, router.limits, start, tracker, body.req, model, now, answers, k, requests, frames)
  {
    hide GovernanceStore.Refusal, StreamedAs, AnsweredAs, RedisLimiter.Judge, RedisLimiter.Requested, RedisLimiter.Recorded;
    tracker := null;
    match body {
      case TooLarge => frames := [ErrorBody(413, "request body too large")];
      case Malformed => frames := [ErrorBody(400, "invalid request body")];
      case Decoded(req) =>
        var begun := governance.BeginRequest(
          caller, Governance.RequestMetadata(requestId, req.model, req.stream, req.messages), now, wire, failing);
        if begun.Err? {
          frames := [RejectionBody(begun.error)];
          return;
        }
        tracker := begun.value;
        if req.stream {
          frames := StreamRequest(router, service, handler, begun.value, req, now, adapters, turns, cancelled, writes, k);
        } else {
          frames := PlainRequest(router, service, handler, begun.value, req, now, answers, k);
        }
    }
  }

  lemma BodyIsBody(e: Error)
    ensures Handlers.BodyOf(e).ErrorBody?
  {
  }

  /** One table of refusals: a limit that is passed when a request begins and one that is passed by an
      attempt of its are answered alike, and what the store could not do is not told. */
  lemma RefusalTable(e: Admission.Error)
    ensures
      var body := Handlers.BodyOf(ErrorOf(e));
      && RejectionBody(Governance.Rejected(e)) == body
      && (e == Admission.RateLimitExceeded ==> body == ErrorBody(429, "rate limit exceeded"))
      && (e == Admission.TokenLimitExceeded ==> body == ErrorBody(429, "token rate limit exceeded"))
      && (e == Admission.BudgetExceeded ==> body == ErrorBody(403, "budget exceeded"))
      && (e == Admission.StoreFailed ==> body == ErrorBody(500, "internal server error"))
  {
    Handlers.StatusTable(ErrorOf(e));
  }

  lemma InvalidBody()
    ensures Handlers.BodyOf(InvalidRequest) == ErrorBody(400, "messages are required")
  {
  }

  // ---- From an Anthropic backend ----

  /** A gateway chunk as the router's providers hand it on. */
  function AsProvided(e: AnthropicStream.StreamEvent, created: int): StreamEvent {
    match e
    case Chunk(id, model, role, content, finishReason) =>
      Chunk(ChatChunk(id, "chat.completion.chunk", created, model, [ChatChoice(0, role, content, finishReason)]))
    case Failure(error) => Failure(Other(error))
  }

  function Provided(events: seq<AnthropicStream.StreamEvent>, created: int): (r: seq<StreamEvent>)
    ensures |r| == |events|
    ensures forall i :: 0 <= i < |events| ==> r[i] == AsProvided(events[i], created)
  {
    seq(|events|, i requires 0 <= i < |events| => AsProvided(events[i], created))
  }

  lemma {:induction false} ProvidedText(events: seq<AnthropicStream.StreamEvent>, created: int, n: nat)
    requires n <= |events|
    ensures StreamText(Provided(events, created), n) == AnthropicStream.ContentText(events[..n])
  {
    if n > 0 {
      ProvidedText(events, created, n - 1);
      assert events[..n] == events[..n - 1] + [events[n - 1]];
      AnthropicStream.ContentTextAppend(events[..n - 1], [events[n - 1]]);
      OneEventText(events[n - 1], created);
    }
  }

  lemma OneEventText(e: AnthropicStream.StreamEvent, created: int)
    ensures
      var text := match AsProvided(e, created)
                  case Chunk(chunk) => SpokenText(chunk.choices, |chunk.choices|)
                  case Failure(_) => "";
      AnthropicStream.ContentText([e]) == text
  {
    assert [e][1..] == [];
    var p := AsProvided(e, created);
    if p.Chunk? {
      assert SpokenText(p.chunk.choices, 0) == "";
      assert SpokenText(p.chunk.choices, 1) == "" + e.content;
    }
  }

  /** An Anthropic stream that ends in message_stop reaches the client whole: the text sent and billed is
      the concatenation of its text deltas, and the end marker follows it. */
  lemma AnthropicToClient(name: string, state: AnthropicStream.State, signals: seq<AnthropicStream.Signal>, end: AnthropicStream.BodyEnd,
                          created: int, turns: Turns, cancelled: Cancelled, writes: Writes)
    requires AnthropicStream.EndsInStop(signals) && !state.finishReasonEmitted
    requires
      var sent := Provided(AnthropicStream.Translate(state, signals, end), created);
      && NeverCancelled(turns, cancelled, |sent|)
      && forall i :: 0 <= i <= |sent| ==> writes(i)
    ensures
      var sent := Provided(AnthropicStream.Translate(state, signals, end), created);
      var events := Served(Forwarded(sent, turns), cancelled);
      var frames := StreamFrames(events, writes);
      && FrameText(frames, |frames|) == AnthropicStream.DeltaText(AnthropicStream.Live(signals))
      && EventText(events, Observed(events, writes)) == AnthropicStream.DeltaText(AnthropicStream.Live(signals))
      && Completes(events, writes) && |frames| == |sent| + 1 && frames[|sent|] == Done
  {
    hide AnthropicStream.Translate, AnthropicStream.ContentText, AnthropicStream.DeltaText, Forwarded, Served, StreamFrames,
         Observed, Completes, StreamText, EventText, FrameText;
    var events := AnthropicStream.Translate(state, signals, end);
    var sent := Provided(events, created);
    AnthropicStream.EndingIsMarked(state, signals, end);
    assert FirstError(sent, 0) == |sent|;
    EndToEnd(name, sent, turns, cancelled, writes);
    ProvidedText(events, created, |events|);
    assert events[..|events|] == events;
    AnthropicStream.ContentIsDeltaText(state, signals, end);
  }

  /** From the bytes of the backend to the client and the bill: a server's messages, printed with any line
      endings and any noise between them, whose signals end in message_stop, reach both as exactly their
      text deltas, and the end marker follows. */
  lemma PrintedToClient(name: string, ms: seq<Sse.Message>, ws: seq<Sse.Written>, broken: bool, decode: AnthropicWire.Decoder,
                        state: AnthropicStream.State, readError: string, created: int, turns: Turns, cancelled: Cancelled, writes: Writes)
    requires forall m :: m in ms ==> Sse.Printable(m)
    requires forall w :: w in ws ==> Sse.Proper(w.line)
    requires Sse.Tidy(Sse.Lines(ws), true) == Sse.StreamLines(ms)
    requires AnthropicStream.EndsInStop(AnthropicWire.SignalsOf(Sse.Delivered(ms), decode)) && !state.finishReasonEmitted
    requires forall i :: turns(i).stop.Deliver? && !cancelled(i) && writes(i)
    ensures
      var signals := AnthropicWire.SignalsOf(AnthropicWire.Read(Sse.Print(ws), broken), decode);
      var sent := Provided(AnthropicStream.Translate(state, signals, AnthropicWire.EndOf(broken, readError)), created);
      var events := Served(Forwarded(sent, turns), cancelled);
      var frames := StreamFrames(events, writes);
      var text := AnthropicStream.DeltaText(AnthropicStream.Live(AnthropicWire.SignalsOf(Sse.Delivered(ms), decode)));
      && FrameText(frames, |frames|) == text && EventText(events, Observed(events, writes)) == text
      && Completes(events, writes) && |frames| == |sent| + 1 && frames[|sent|] == Done
  {
    hide AnthropicStream.Translate, AnthropicStream.DeltaText, AnthropicStream.Live, AnthropicStream.EndsInStop, AnthropicWire.Read,
         AnthropicWire.SignalsOf, Sse.Print, Sse.Tidy, Sse.Printable, Sse.Proper, Sse.Delivered, Forwarded, Served, StreamFrames,
         Observed, Completes, EventText, FrameText;
    AnthropicWire.PrintedText(ms, ws, broken, decode, state, readError);
    AnthropicToClient(name, state, AnthropicWire.SignalsOf(Sse.Delivered(ms), decode), AnthropicWire.EndOf(broken, readError), created,
                      turns, cancelled, writes);
  }
}
