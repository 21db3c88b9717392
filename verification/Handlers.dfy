/** The chat handler: what it writes to the client and how it ends the tracked request
    (internal/api/handlers/chat.go). */
module Handlers {
  import opened Wrappers
  import opened Provider
  import opened Tokens
  import opened Text
  import opened ChatService
  import opened Governance
  import Ledger
  import GovernanceStore
  import RedisLimiter

  /** What reaches the client, in order: stream frames, or a JSON body with its status. */
  datatype Frame =
    | Data(chunk: CompletionChunk)
    | Done
    | ErrorBody(status: nat, message: string)
    | AnswerBody(response: CompletionResponse)

  const INTERNAL_SERVER_ERROR := "internal server error"

  predicate IsGovernanceError(e: Error) {
    e.RateLimitExceeded? || e.TokenLimitExceeded? || e.BudgetExceeded?
  }

  function GovernanceBody(e: Error): Frame {
    match e
    case RateLimitExceeded => ErrorBody(429, "rate limit exceeded")
    case TokenLimitExceeded => ErrorBody(429, "token rate limit exceeded")
    case BudgetExceeded => ErrorBody(403, "budget exceeded")
    case _ => ErrorBody(500, INTERNAL_SERVER_ERROR)
  }

  function ServiceBody(e: Error): Frame {
    if e.InvalidRequest? then ErrorBody(400, ErrorText(e)) else ErrorBody(500, INTERNAL_SERVER_ERROR)
  }

  function BodyOf(e: Error): Frame {
    if IsGovernanceError(e) then GovernanceBody(e) else ServiceBody(e)
  }

  // ---- What a stream response is ----

  /** Whether the client still takes the i-th frame. */
  type Writes = nat -> bool

  /** The event from i on at which the response stops: an error, or a chunk that cannot be written. */
  function Stopped(events: seq<CompletionEvent>, writes: Writes, i: nat): (p: nat)
    requires i <= |events|
    ensures i <= p <= |events|
    ensures forall j :: i <= j < p ==> events[j].Piece? && writes(j)
    ensures p < |events| ==> events[p].Broken? || !writes(p)
    decreases |events| - i
  {
    if i == |events| || events[i].Broken? || !writes(i) then i else Stopped(events, writes, i + 1)
  }

  function DataFrames(events: seq<CompletionEvent>, n: nat): (frames: seq<Frame>)
    requires n <= |events| && forall i :: 0 <= i < n ==> events[i].Piece?
    ensures |frames| == n
  {
    seq(n, i requires 0 <= i < n => Data(events[i].chunk))
  }

  /** The text of the chunks among the first n events. */
  function EventText(events: seq<CompletionEvent>, n: nat): string
    requires n <= |events|
  {
    if n == 0 then ""
    else
      EventText(events, n - 1)
      + match events[n - 1]
        case Piece(chunk) => DeltaText(chunk.choices, |chunk.choices|)
        case Broken(_) => ""
  }

  /** The model that the tracker has been shown after n events: the last one that a chunk named, or else the
      one it began with. */
  function EventModel(events: seq<CompletionEvent>, n: nat, model: string): string
    requires n <= |events|
  {
    if n == 0 then model
    else if events[n - 1].Piece? && events[n - 1].chunk.model != "" then events[n - 1].chunk.model
    else EventModel(events, n - 1, model)
  }

  lemma {:induction false} LastModelNamed(events: seq<CompletionEvent>, n: nat, model: string, k: nat)
    requires k <= n <= |events|
    requires forall i :: k <= i < n && events[i].Piece? ==> events[i].chunk.model == ""
    ensures k == 0 ==> EventModel(events, n, model) == model
    ensures k > 0 && events[k - 1].Piece? && events[k - 1].chunk.model != "" ==> EventModel(events, n, model) == events[k - 1].chunk.model
  {
    if k < n {
      LastModelNamed(events, n - 1, model, k);
    }
  }

  /** Everything that is written for a stream that was opened. */
  function StreamFrames(events: seq<CompletionEvent>, writes: Writes): seq<Frame> {
    var p := Stopped(events, writes, 0);
    DataFrames(events, p)
    + if p < |events| then (if events[p].Broken? && p == 0 then [BodyOf(events[p].error)] else [])
      else if p == 0 then [ErrorBody(500, INTERNAL_SERVER_ERROR)]
      else if writes(p) then [Done] else []
  }

  /** How many events the tracker has been shown: a chunk is observed before it is written. */
  function Observed(events: seq<CompletionEvent>, writes: Writes): (n: nat)
    ensures n <= |events|
  {
    var p := Stopped(events, writes, 0);
    if p < |events| && events[p].Piece? then p + 1 else p
  }

  predicate Completes(events: seq<CompletionEvent>, writes: Writes) {
    var p := Stopped(events, writes, 0);
    p == |events| && p > 0 && writes(p)
  }

  /** What a stream response amounts to in each of the ways in which it ends. */
  lemma StreamEnds(events: seq<CompletionEvent>, writes: Writes)
    ensures
      var p := Stopped(events, writes, 0);
      if p < |events| then
        !Completes(events, writes)
        && Observed(events, writes) == (if events[p].Piece? then p + 1 else p)
        && StreamFrames(events, writes) == DataFrames(events, p) + (if events[p].Broken? && p == 0 then [BodyOf(events[p].error)] else [])
      else
        (Completes(events, writes) <==> p > 0 && writes(p)) && Observed(events, writes) == p
        && StreamFrames(events, writes) == (if p == 0 then [ErrorBody(500, INTERNAL_SERVER_ERROR)]
                                            else DataFrames(events, p) + if writes(p) then [Done] else [])
  {
  }

  /** What a stream's ending makes of the two tables: both rows are settled at the text that was observed,
      as succeeded or as failed, as far as the recording and the updates work, one after the other. */
  predicate Billed(tracker: RequestTracker, req: CompletionRequest, completed: bool, k: Settling,
                   requests: seq<Ledger.Row>, attempts: seq<Ledger.Row>)
    reads tracker, tracker.store
  {
    var first := !k.requestFails && !(completed && tracker.RecordingFails(Words(tracker.streamCompletion), k.counting));
    && tracker.store.requests == (if !first then requests else
         GovernanceStore.Updated(requests, tracker.recordId,
           if completed then tracker.CompletedBill(req) else Ledger.Settlement(tracker.model, "failed", 0, 0, 0)))
    && tracker.store.attempts ==
         if !first || k.attemptFails || tracker.latestAttemptId == 0 || (!completed && !tracker.stream) then attempts
         else GovernanceStore.Updated(attempts, tracker.latestAttemptId,
                                      if completed then tracker.CompletedBill(req) else tracker.FailedBill())
  }

  lemma BilledKeepsRows(tracker: RequestTracker, req: CompletionRequest, completed: bool, k: Settling,
                        requests: seq<Ledger.Row>, attempts: seq<Ledger.Row>)
    requires Billed(tracker, req, completed, k, requests, attempts)
    ensures GovernanceStore.SameRows(attempts, tracker.store.attempts)
  {
    hide Words, GovernanceStore.SameRows, GovernanceStore.Updated;
    GovernanceStore.UpdatedIsSame(attempts, tracker.latestAttemptId, if completed then tracker.CompletedBill(req) else tracker.FailedBill());
  }

  /** The counters after the observed text has been recorded. */
  function RecordedState(tracker: RequestTracker, s: RedisLimiter.State, k: Settling): RedisLimiter.State
    requires tracker.redis != null
    reads tracker
  {
    RedisLimiter.Recorded(tracker.redis.limits, s, tracker.principal.tenant, Words(tracker.streamCompletion), k.counting)
  }

  /** No update of the settlement fails, nor the recording of the completion, if there is one. */
  predicate SettlementWorks(tracker: RequestTracker, completed: bool, k: Settling)
    reads tracker
  {
    && !k.requestFails && !k.attemptFails
    && (completed ==> !tracker.RecordingFails(Words(tracker.streamCompletion), k.counting))
  }

  class ChatHandler {
    /** The stream counters of the metrics registry. */
    var streamRequests: nat
    var streamChunks: nat

    constructor ()
      ensures streamRequests == 0 && streamChunks == 0
    {
      streamRequests, streamChunks := 0, 0;
    }

    /** A stream request, once the service has answered. In every run the tracker is ended exactly once,
        and completed only when everything, the end marker included, was written. */
    method StreamCompletion(tracker: RequestTracker, req: CompletionRequest, flushable: bool,
                            answer: Result<seq<CompletionEvent>, Error>, writes: Writes, k: Settling)
      returns (frames: seq<Frame>)
      requires tracker.Valid()
      modifies this, tracker`model, tracker`streamCompletion, tracker`endings, tracker.store, tracker.redis
      ensures tracker.Valid()
      ensures
        if !flushable then frames == [ErrorBody(500, "streaming unsupported")]
        else match answer
             case Err(e) => frames == [BodyOf(e)]
             case Ok(events) => frames == StreamFrames(events, writes)
      ensures
        var completed := flushable && answer.Ok? && Completes(answer.value, writes);
        && tracker.endings == old(tracker.endings) + [if completed then CompletingStream else Failing]
        && tracker.streamCompletion == old(tracker.streamCompletion) +
             (if flushable && answer.Ok? then EventText(answer.value, Observed(answer.value, writes)) else "")
        && tracker.model == (if flushable && answer.Ok? then EventModel(answer.value, Observed(answer.value, writes), old(tracker.model))
                             else old(tracker.model))
        && Billed(tracker, req, completed, k, old(tracker.store.requests), old(tracker.store.attempts))
        && (tracker.redis != null ==>
              tracker.redis.state == if completed then RecordedState(tracker, old(tracker.redis.state), k) else old(tracker.redis.state))
      ensures
        var written := if flushable && answer.Ok? then Stopped(answer.value, writes, 0) else 0;
        && streamChunks == old(streamChunks) + written
        && streamRequests == old(streamRequests) + if written > 0 then 1 else 0
    {
      hide Billed, SettlementWorks, RecordedState, BodyOf, StreamFrames, Observed, Completes, EventText, EventModel;
      frames := [];
      if !flushable {
        EndStream(tracker, req, false, k);
        return [ErrorBody(500, "streaming unsupported")];
      }
      if answer.Err? {
        EndStream(tracker, req, false, k);
        return [BodyOf(answer.error)];
      }
      var events := answer.value;
      StreamEnds(events, writes);
      var sent, stopped := SendEvents(tracker, events, writes);
      frames := sent;
      var headersWritten := |frames| > 0;
      if stopped < |events| {
        EndStream(tracker, req, false, k);
        if events[stopped].Broken? && !headersWritten {
          frames := [BodyOf(events[stopped].error)];
        }
        return;
      }
      if !headersWritten {
        EndStream(tracker, req, false, k);
        return [ErrorBody(500, INTERNAL_SERVER_ERROR)];
      }
      if !writes(|events|) {
        EndStream(tracker, req, false, k);
        return;
      }
      frames := frames + [Done];
      EndStream(tracker, req, true, k);
    }

    /** The tracker is told how the stream ended; whether it can settle makes no difference to the client. */
    method EndStream(tracker: RequestTracker, req: CompletionRequest, completed: bool, k: Settling)
      requires tracker.Valid()
      modifies tracker`endings, tracker.store, tracker.redis
      ensures tracker.Valid()
      ensures tracker.endings == old(tracker.endings) + [if completed then CompletingStream else Failing]
      ensures Billed(tracker, req, completed, k, old(tracker.store.requests), old(tracker.store.attempts))
      ensures tracker.redis != null ==>
                tracker.redis.state == if completed then RecordedState(tracker, old(tracker.redis.state), k) else old(tracker.redis.state)
    {
      hide Words, PromptTokens, GovernanceStore.Updated, RedisLimiter.Recorded, RedisLimiter.RecordingFails;
      if completed {
        var _ := tracker.CompleteStream(req, k);
      } else {
        var _ := tracker.Fail(k);
      }
    }

    /** The loop over the events: each chunk is shown to the tracker, then written, then counted, until an
        error arrives or a chunk cannot be written. */
    method SendEvents(tracker: RequestTracker, events: seq<CompletionEvent>, writes: Writes)
      returns (frames: seq<Frame>, stopped: nat)
      modifies this, tracker`model, tracker`streamCompletion
      ensures stopped == Stopped(events, writes, 0) && frames == DataFrames(events, stopped)
      ensures tracker.streamCompletion == old(tracker.streamCompletion) + EventText(events, Observed(events, writes))
      ensures tracker.model == EventModel(events, Observed(events, writes), old(tracker.model))
      ensures streamChunks == old(streamChunks) + stopped
      ensures streamRequests == old(streamRequests) + if stopped > 0 then 1 else 0
    {
      hide DeltaText;
      frames := [];
      var firstChunkWritten := false;
      ghost var p := Stopped(events, writes, 0);
      for i := 0 to |events|
        invariant i <= p && frames == DataFrames(events, i) && firstChunkWritten == (i > 0)
        invariant tracker.streamCompletion == old(tracker.streamCompletion) + EventText(events, i)
        invariant tracker.model == EventModel(events, i, old(tracker.model))
        invariant streamChunks == old(streamChunks) + i && streamRequests == old(streamRequests) + if i > 0 then 1 else 0
      {
        if events[i].Broken? {
          return frames, i;
        }
        var chunk := events[i].chunk;
        tracker.ObserveStreamChunk(chunk);
        Extended(old(tracker.streamCompletion), EventText(events, i), DeltaText(chunk.choices, |chunk.choices|));
        if !writes(i) {
          return frames, i;
        }
        frames := frames + [Data(chunk)];
        if !firstChunkWritten {
          streamRequests := streamRequests + 1;
          firstChunkWritten := true;
        }
        streamChunks := streamChunks + 1;
      }
      stopped := |events|;
    }

    /** A request that is not streamed: one body, one ending, and the request settled at the usage of the
        answer or, without one, at nothing. */
    method HandleNonStreamCompletion(tracker: RequestTracker, req: CompletionRequest, answer: Result<CompletionResponse, Error>, k: Settling)
      returns (frames: seq<Frame>)
      requires tracker.Valid()
      modifies tracker`endings, tracker.store, tracker.redis
      ensures tracker.Valid()
      ensures
        match answer
        case Err(e) =>
          && frames == [BodyOf(e)] && tracker.endings == old(tracker.endings) + [Failing]
          && (!k.requestFails ==>
                tracker.store.requests == GovernanceStore.Updated(old(tracker.store.requests), tracker.recordId,
                                                                  Ledger.Settlement(tracker.model, "failed", 0, 0, 0)))
          && (!tracker.stream ==> tracker.store.attempts == old(tracker.store.attempts))
          && (tracker.redis != null ==> tracker.redis.state == old(tracker.redis.state))
        case Ok(resp) =>
          var (prompt, completion, total) := tracker.UsageOf(req, resp);
          var settles := !tracker.RecordingFails(completion, k.counting) && !k.requestFails;
          && tracker.endings == old(tracker.endings) + [CompletingNonStream]
          && frames == [if settles then AnswerBody(resp) else ErrorBody(500, INTERNAL_SERVER_ERROR)]
          && tracker.store.attempts == old(tracker.store.attempts)
          && (settles && 1 <= tracker.recordId <= |tracker.store.requests| ==>
                var row := tracker.store.requests[tracker.recordId - 1];
                && (resp.usage.promptTokens != 0 ==> row.promptTokens == resp.usage.promptTokens)
                && (resp.usage.promptTokens == 0 ==> row.promptTokens == PromptTokens(req.messages))
                && (resp.usage.totalTokens != 0 ==>
                      row.completionTokens == resp.usage.completionTokens && row.totalTokens == resp.usage.totalTokens)
                && (resp.usage.totalTokens == 0 ==>
                      && row.completionTokens == Words(JoinedContent(resp.choices, |resp.choices|))
                      && row.totalTokens == row.promptTokens + row.completionTokens))
          && tracker.store.requests == (if settles then
               GovernanceStore.Updated(old(tracker.store.requests), tracker.recordId,
                                       Ledger.Settlement(resp.model, "succeeded", prompt, completion, total))
               else old(tracker.store.requests))
          && (tracker.redis != null ==>
                tracker.redis.state == RedisLimiter.Recorded(tracker.redis.limits, old(tracker.redis.state), tracker.principal.tenant,
                                                             completion, k.counting))
    {
      hide Words, PromptTokens, GovernanceStore.Updated, RedisLimiter.Recorded, RedisLimiter.RecordingFails, JoinedContent;
      if answer.Err? {
        var _ := tracker.Fail(k);
        return [BodyOf(answer.error)];
      }
      var ok := tracker.CompleteNonStream(req, answer.value, k);
      if !ok {
        return [ErrorBody(500, INTERNAL_SERVER_ERROR)];
      }
      return [AnswerBody(answer.value)];
    }
  }

  // ---- What the client can rely on ----

  predicate IsBody(f: Frame) {
    f.ErrorBody? || f.AnswerBody?
  }

  /** The text that the client has been sent. */
  function FrameText(frames: seq<Frame>, n: nat): string
    requires n <= |frames|
  {
    if n == 0 then ""
    else FrameText(frames, n - 1)
         + if frames[n - 1].Data? then DeltaText(frames[n - 1].chunk.choices, |frames[n - 1].chunk.choices|) else ""
  }

  /** In all runs: a JSON body stands alone; the end marker comes last, once, after at least one chunk,
      and only when the tracker is completed; everything else is data. */
  lemma BodiesAndFramesNeverMix(events: seq<CompletionEvent>, writes: Writes)
    ensures
      var frames := StreamFrames(events, writes);
      && (forall i :: 0 <= i < |frames| && IsBody(frames[i]) ==> |frames| == 1)
      && (forall i :: 0 <= i < |frames| && frames[i].Done? ==> i == |frames| - 1 && i > 0)
      && (Completes(events, writes) <==> frames != [] && frames[|frames| - 1].Done?)
  {
  }

  /** The body and the status that each error is answered with: a request without messages is a bad one,
      a passed limit is a refusal that says which, and nothing is told of anything else. */
  lemma StatusTable(e: Error)
    ensures e == RateLimitExceeded ==> BodyOf(e) == ErrorBody(429, "rate limit exceeded")
    ensures e == TokenLimitExceeded ==> BodyOf(e) == ErrorBody(429, "token rate limit exceeded")
    ensures e == BudgetExceeded ==> BodyOf(e) == ErrorBody(403, "budget exceeded")
    ensures e == InvalidRequest ==> BodyOf(e) == ErrorBody(400, "messages are required")
    ensures e.Other? ==> BodyOf(e) == ErrorBody(500, "internal server error")
  {
  }

  /** A stream that ends before its first chunk is answered by a JSON body: that of its error, or an
      internal error when it ends without one. A chunk that cannot be written, before anything was, leaves nothing. */
  lemma EarlyEndings(events: seq<CompletionEvent>, writes: Writes)
    ensures events == [] ==> StreamFrames(events, writes) == [ErrorBody(500, "internal server error")]
    ensures events != [] && events[0].Broken? ==> StreamFrames(events, writes) == [BodyOf(events[0].error)]
    ensures events != [] && events[0].Piece? && !writes(0) ==> StreamFrames(events, writes) == []
  {
  }

  lemma {:induction false} DataText(events: seq<CompletionEvent>, p: nat, rest: seq<Frame>, n: nat)
    requires n <= p <= |events| && forall i :: 0 <= i < p ==> events[i].Piece?
    ensures FrameText(DataFrames(events, p) + rest, n) == EventText(events, n)
  {
    hide DeltaText;
    if n > 0 {
      DataText(events, p, rest, n - 1);
      assert (DataFrames(events, p) + rest)[n - 1] == Data(events[n - 1].chunk);
    }
  }

  lemma {:induction false} NoMoreText(frames: seq<Frame>, n: nat, m: nat)
    requires n <= m <= |frames| && forall i :: n <= i < m ==> !frames[i].Data?
    ensures FrameText(frames, m) == FrameText(frames, n)
  {
    if n < m {
      NoMoreText(frames, n, m - 1);
    }
  }

  /** In all runs, the text sent is the text observed, but for the one chunk whose write failed; what was
      observed is billed. */
  lemma SentIsObserved(events: seq<CompletionEvent>, writes: Writes)
    ensures
      var frames := StreamFrames(events, writes);
      var p := Stopped(events, writes, 0);
      && FrameText(frames, |frames|) == EventText(events, p)
      && (Observed(events, writes) != p ==> !writes(p) && Observed(events, writes) == p + 1)
  {
    var p, frames := Stopped(events, writes, 0), StreamFrames(events, writes);
    DataText(events, p, frames[p..], p);
    assert DataFrames(events, p) + frames[p..] == frames;
    NoMoreText(frames, p, |frames|);
  }

  /** A stream that is written whole, but for its end marker, is not completed: all of its text has been
      sent and observed, and the request is settled as failed. */
  lemma LostMarkerFailsAll(events: seq<CompletionEvent>, writes: Writes)
    requires events != [] && forall i :: 0 <= i < |events| ==> events[i].Piece? && writes(i)
    requires !writes(|events|)
    ensures StreamFrames(events, writes) == DataFrames(events, |events|)
    ensures FrameText(StreamFrames(events, writes), |events|) == EventText(events, Observed(events, writes)) == EventText(events, |events|)
    ensures !Completes(events, writes)
  {
    hide FrameText, EventText, StreamFrames, Observed, Completes;
    assert Stopped(events, writes, 0) == |events|;
    StreamEnds(events, writes);
    SentIsObserved(events, writes);
    assert DataFrames(events, |events|) + [] == DataFrames(events, |events|);
  }
}
