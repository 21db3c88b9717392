/** Beginning a request, and the tracker that follows it: attempts, observed text, settlement
    (internal/service/governance/service.go). */
module Governance {
  import opened Wrappers
  import opened Text
  import opened Tokens
  import opened Sums
  import opened Ledger
  import opened Admission
  import opened GovernanceStore
  import RedisLimiter
  import ChatService

  // ---- Settlement ----

  datatype AttemptMetadata = AttemptMetadata(
    backend: string, model: string, stream: bool, promptTokens: nat, createdAt: Option<Time>)

  datatype AttemptResult = AttemptResult(model: string, status: string, promptTokens: int, completionTokens: int, totalTokens: int)

  /** What is needed to settle an attempt that has begun. */
  datatype AttemptHandle = AttemptHandle(recordId: nat, defaultModel: string, promptTokens: nat)

  function OrDefault(model: string, fallback: string): string {
    if Trim(model) == "" then fallback else Trim(model)
  }

  /** What Complete writes: what the result leaves out is taken from the handle. */
  function SettlementOf(h: AttemptHandle, r: AttemptResult): Settlement {
    var prompt := if r.promptTokens == 0 then h.promptTokens else r.promptTokens;
    Settlement(OrDefault(r.model, h.defaultModel), r.status, prompt, r.completionTokens,
               if r.totalTokens == 0 then prompt + r.completionTokens else r.totalTokens)
  }

  method Complete(store: Store, h: AttemptHandle, r: AttemptResult, fails: bool) returns (ok: bool)
    modifies store
    ensures ok == !fails && store.requests == old(store.requests)
    ensures store.attempts == if ok then Updated(old(store.attempts), h.recordId, SettlementOf(h, r)) else old(store.attempts)
    ensures ok && 1 <= h.recordId <= |store.attempts| ==>
              var row := store.attempts[h.recordId - 1];
              && row.status == r.status && row.completionTokens == r.completionTokens
              && row.promptTokens == (if r.promptTokens != 0 then r.promptTokens else h.promptTokens)
              && row.totalTokens == (if r.totalTokens != 0 then r.totalTokens else row.promptTokens + r.completionTokens)
              && row.model == (if Trim(r.model) != "" then Trim(r.model) else h.defaultModel)
  {
    var promptTokens := r.promptTokens;
    if promptTokens == 0 {
      promptTokens := h.promptTokens;
    }
    var totalTokens := r.totalTokens;
    if totalTokens == 0 {
      totalTokens := promptTokens + r.completionTokens;
    }
    var model := Trim(r.model);
    if model == "" {
      model := h.defaultModel;
    }
    ok := store.UpdateAttemptUsageRecord(
      h.recordId, Settlement(model, r.status, promptTokens, r.completionTokens, totalTokens), fails);
  }

  // ---- The tracker ----

  /** How the handler ends a tracked request. */
  datatype Ending = Failing | CompletingStream | CompletingNonStream

  /** How the counters are told of a completion, and which updates of a settlement fail. */
  datatype Settling = Settling(counting: RedisLimiter.Counting, requestFails: bool, attemptFails: bool)

  function JoinedContent(choices: seq<ChatService.Choice>, n: nat): string
    requires n <= |choices|
  {
    if n == 0 then "" else JoinedContent(choices, n - 1) + choices[n - 1].message.content
  }

  method JoinChoiceContent(choices: seq<ChatService.Choice>) returns (builder: string)
    ensures builder == JoinedContent(choices, |choices|)
  {
    builder := "";
    for i := 0 to |choices|
      invariant builder == JoinedContent(choices, i)
    {
      builder := builder + choices[i].message.content;
    }
  }

  class RequestTracker {
    const store: Store
    /** The counters that completions are recorded in, if admission uses them. */
    const redis: RedisLimiter.Limiter?
    const principal: Principal
    const requestId: string
    const recordId: nat
    const stream: bool
    var latestAttemptId: nat
    var latestAttemptTok: int
    var model: string
    var streamCompletion: string
    /** The ways in which the request was ended. */
    var endings: seq<Ending>

    constructor (store: Store, redis: RedisLimiter.Limiter?, principal: Principal, requestId: string, recordId: nat,
                 model: string, stream: bool)
      ensures this.store == store && this.redis == redis && this.principal == principal && this.requestId == requestId
      ensures this.recordId == recordId && this.stream == stream && this.model == model
      ensures latestAttemptId == 0 && latestAttemptTok == 0 && streamCompletion == "" && endings == []
    {
      this.store, this.redis, this.principal, this.requestId := store, redis, principal, requestId;
      this.recordId, this.stream, this.model := recordId, stream, model;
      latestAttemptId, latestAttemptTok, streamCompletion, endings := 0, 0, "", [];
    }

    ghost predicate Valid()
      reads this, redis
    {
      redis != null ==> redis.Valid()
    }

    /** Whether recording so many completion tokens fails. */
    predicate RecordingFails(tokens: int, k: RedisLimiter.Counting) {
      redis != null && RedisLimiter.RecordingFails(redis.limits, redis.fallback, principal.tenant, tokens, k)
    }

    /** A positive completion is recorded in the counters, if there are any. */
    method Record(tokens: int, k: RedisLimiter.Counting) returns (ok: bool)
      requires Valid()
      modifies redis
      ensures Valid() && ok == !RecordingFails(tokens, k)
      ensures redis != null ==>
                redis.state == RedisLimiter.Recorded(redis.limits, old(redis.state), principal.tenant, tokens, k)
    {
      if redis == null || tokens <= 0 {
        return true;
      }
      var failure := redis.RecordCompletionTokens(principal.tenant, tokens, k);
      ok := failure.None?;
    }

    function AttemptInput(m: AttemptMetadata, contextBackend: string, now: Time): Input
      reads this
    {
      Input(principal, requestId, if Trim(m.backend) == "" then contextBackend else Trim(m.backend), OrDefault(m.model, model),
            m.stream, m.promptTokens, if m.createdAt.Some? then m.createdAt.value else now)
    }

    /** An attempt begins when the store admits it against the budget; the last stream attempt is the one
        that the stream's text is billed to. */
    method BeginAttempt(m: AttemptMetadata, contextBackend: string, now: Time, failing: set<Statement>)
      returns (r: Result<AttemptHandle, Error>)
      modifies this`latestAttemptId, this`latestAttemptTok, store
      ensures store.requests == old(store.requests)
      ensures
        var input := AttemptInput(m, contextBackend, now);
        match Refusal(AttemptAdmission, store.tenants, store.requests, old(store.attempts), input, failing)
        case Some(error) =>
          && r == Err(error) && store.attempts == old(store.attempts)
          && latestAttemptId == old(latestAttemptId) && latestAttemptTok == old(latestAttemptTok)
        case None =>
          && store.attempts == old(store.attempts) + [RowOf(input)]
          && r == Ok(AttemptHandle(|store.attempts|, input.model, m.promptTokens))
          && (if m.stream then latestAttemptId == |store.attempts| && latestAttemptTok == m.promptTokens
              else latestAttemptId == old(latestAttemptId) && latestAttemptTok == old(latestAttemptTok))
    {
      hide Refusal;
      var createdAt := if m.createdAt.Some? then m.createdAt.value else now;
      var attemptModel := Trim(m.model);
      if attemptModel == "" {
        attemptModel := model;
      }
      var backend := Trim(m.backend);
      if backend == "" {
        backend := contextBackend;
      }
      var begun, _ := store.BeginAttemptAtomic(
        Input(principal, requestId, backend, attemptModel, m.stream, m.promptTokens, createdAt), failing);
      if begun.Err? {
        return Err(begun.error);
      }
      if m.stream {
        latestAttemptId, latestAttemptTok := begun.value, m.promptTokens;
      }
      return Ok(AttemptHandle(begun.value, attemptModel, m.promptTokens));
    }

    /** What a failed stream attempt is charged: its prompt and the words of the observed text. */
    function FailedBill(): Settlement
      reads this
    {
      Settlement(model, "failed", latestAttemptTok, Words(streamCompletion), latestAttemptTok + Words(streamCompletion))
    }

    /** The request is settled as failed; a stream attempt is charged for its prompt and for the text
        that was observed. */
    method Fail(k: Settling) returns (ok: bool)
      modifies this`endings, store
      ensures endings == old(endings) + [Failing]
      ensures ok <==> !k.requestFails && (stream && latestAttemptId != 0 ==> !k.attemptFails)
      ensures store.requests == if k.requestFails then old(store.requests)
                                else Updated(old(store.requests), recordId, Settlement(model, "failed", 0, 0, 0))
      ensures store.attempts == if !ok || !stream || latestAttemptId == 0 then old(store.attempts)
                                else Updated(old(store.attempts), latestAttemptId, FailedBill())
      ensures FailedBill() ==
              Settlement(model, "failed", latestAttemptTok, Words(streamCompletion), latestAttemptTok + Words(streamCompletion))
    {
      hide Words, Updated, PromptTokens, EstimateTextTokens, Trim;
      EstimateCountsWords(streamCompletion);
      endings := endings + [Failing];
      ok := store.UpdateUsageRecord(recordId, Settlement(model, "failed", 0, 0, 0), k.requestFails);
      if !ok || !stream || latestAttemptId == 0 {
        return;
      }
      var completionTokens := EstimateTextTokens(streamCompletion);
      ok := store.UpdateAttemptUsageRecord(latestAttemptId,
        Settlement(model, "failed", latestAttemptTok, completionTokens, latestAttemptTok + completionTokens), k.attemptFails);
    }

    /** The usage of an answer, estimated where the provider reports none. */
    function UsageOf(req: ChatService.CompletionRequest, resp: ChatService.CompletionResponse): (int, int, int) {
      var prompt := if resp.usage.promptTokens == 0 then PromptTokens(req.messages) else resp.usage.promptTokens;
      if resp.usage.totalTokens == 0 then
        var completion := Words(JoinedContent(resp.choices, |resp.choices|));
        (prompt, completion, prompt + completion)
      else (prompt, resp.usage.completionTokens, resp.usage.totalTokens)
    }

    method CompleteNonStream(req: ChatService.CompletionRequest, resp: ChatService.CompletionResponse, k: Settling)
      returns (ok: bool)
      requires Valid()
      modifies this`endings, store, redis
      ensures Valid() && endings == old(endings) + [CompletingNonStream] && store.attempts == old(store.attempts)
      ensures
        var (prompt, completion, total) := UsageOf(req, resp);
        && (ok <==> !RecordingFails(completion, k.counting) && !k.requestFails)
        && (redis != null ==>
              redis.state == RedisLimiter.Recorded(redis.limits, old(redis.state), principal.tenant, completion, k.counting))
        && store.requests == (if !ok then old(store.requests)
                              else Updated(old(store.requests), recordId, Settlement(resp.model, "succeeded", prompt, completion, total)))
      ensures ok && 1 <= recordId <= |store.requests| ==>
                var row := store.requests[recordId - 1];
                && row.status == "succeeded" && row.model == resp.model
                && (resp.usage.promptTokens != 0 ==> row.promptTokens == resp.usage.promptTokens)
                && (resp.usage.promptTokens == 0 ==> row.promptTokens == PromptTokens(req.messages))
                && (resp.usage.totalTokens != 0 ==>
                      row.completionTokens == resp.usage.completionTokens && row.totalTokens == resp.usage.totalTokens)
                && (resp.usage.totalTokens == 0 ==>
                      && row.completionTokens == Words(JoinedContent(resp.choices, |resp.choices|))
                      && row.totalTokens == row.promptTokens + row.completionTokens)
      ensures redis != null && resp.usage.totalTokens != 0 ==>
                redis.state == RedisLimiter.Recorded(redis.limits, old(redis.state), principal.tenant, resp.usage.completionTokens, k.counting)
      ensures redis != null && resp.usage.totalTokens == 0 ==>
                redis.state == RedisLimiter.Recorded(redis.limits, old(redis.state), principal.tenant,
                                                     Words(JoinedContent(resp.choices, |resp.choices|)), k.counting)
    {
      hide Words, Updated, PromptTokens, EstimateTextTokens, Trim, JoinedContent, RedisLimiter.Recorded, RedisLimiter.RecordingFails;
      endings := endings + [CompletingNonStream];
      var promptTokens := resp.usage.promptTokens;
      if promptTokens == 0 {
        promptTokens := EstimatePromptTokens(req.messages);
      }
      var completionTokens, totalTokens := resp.usage.completionTokens, resp.usage.totalTokens;
      if totalTokens == 0 {
        var builder := JoinChoiceContent(resp.choices);
        EstimateCountsWords(builder);
        completionTokens := EstimateTextTokens(builder);
        totalTokens := promptTokens + completionTokens;
      }
      ok := Record(completionTokens, k.counting);
      if !ok {
        return;
      }
      ok := store.UpdateUsageRecord(
        recordId, Settlement(resp.model, "succeeded", promptTokens, completionTokens, totalTokens), k.requestFails);
    }

    /** The text of a chunk that is sent is added to what will be billed. */
    method ObserveStreamChunk(chunk: ChatService.CompletionChunk)
      modifies this`model, this`streamCompletion
      ensures model == if chunk.model != "" then chunk.model else old(model)
      ensures streamCompletion == old(streamCompletion) + ChatService.DeltaText(chunk.choices, |chunk.choices|)
    {
      if chunk.model != "" {
        model := chunk.model;
      }
      for i := 0 to |chunk.choices|
        invariant streamCompletion == old(streamCompletion) + ChatService.DeltaText(chunk.choices, i)
        invariant model == if chunk.model != "" then chunk.model else old(model)
      {
        Extended(old(streamCompletion), ChatService.DeltaText(chunk.choices, i), chunk.choices[i].content);
        streamCompletion := streamCompletion + chunk.choices[i].content;
      }
    }

    /** What a completed stream is charged: the prompt's words and the words of the observed text. */
    function CompletedBill(req: ChatService.CompletionRequest): Settlement
      reads this
    {
      var prompt, completion := PromptTokens(req.messages), Words(streamCompletion);
      Settlement(model, "succeeded", prompt, completion, prompt + completion)
    }

    /** Request and attempt are settled alike, after the completion has been recorded. */
    method CompleteStream(req: ChatService.CompletionRequest, k: Settling) returns (ok: bool)
      requires Valid()
      modifies this`endings, store, redis
      ensures Valid() && endings == old(endings) + [CompletingStream]
      ensures
        var counted := !RecordingFails(Words(streamCompletion), k.counting);
        && (redis != null ==>
              redis.state == RedisLimiter.Recorded(redis.limits, old(redis.state), principal.tenant, Words(streamCompletion), k.counting))
        && (ok <==> counted && !k.requestFails && (latestAttemptId != 0 ==> !k.attemptFails))
        && store.requests == (if counted && !k.requestFails then Updated(old(store.requests), recordId, CompletedBill(req)) else old(store.requests))
        && store.attempts == (if ok && latestAttemptId != 0 then Updated(old(store.attempts), latestAttemptId, CompletedBill(req)) else old(store.attempts))
      ensures CompletedBill(req) ==
              Settlement(model, "succeeded", PromptTokens(req.messages), Words(streamCompletion),
                         PromptTokens(req.messages) + Words(streamCompletion))
    {
      hide Words, Updated, PromptTokens, EstimateTextTokens, Trim, RedisLimiter.Recorded, RedisLimiter.RecordingFails;
      endings := endings + [CompletingStream];
      var promptTokens := EstimatePromptTokens(req.messages);
      EstimateCountsWords(streamCompletion);
      var completionTokens := EstimateTextTokens(streamCompletion);
      ok := Record(completionTokens, k.counting);
      if !ok {
        return;
      }
      var u := Settlement(model, "succeeded", promptTokens, completionTokens, promptTokens + completionTokens);
      ok := store.UpdateUsageRecord(recordId, u, k.requestFails);
      if !ok || latestAttemptId == 0 {
        return;
      }
      ok := store.UpdateAttemptUsageRecord(latestAttemptId, u, k.attemptFails);
    }
  }

  lemma Extended(a: string, b: string, c: string)
    ensures (a + b) + c == a + (b + c)
  {
  }

  // ---- Beginning a request ----

  datatype RequestMetadata = RequestMetadata(requestId: string, model: string, stream: bool, messages: seq<ChatMessage>)

  /** How a command to the counters fares. */
  datatype Wire = Wire(at: Time, delivery: RedisLimiter.Delivery)

  datatype Decision = Transaction | Refuse(error: Error) | Insert

  datatype BeginError = PrincipalNotFound | Rejected(error: Error)

  class Service {
    const store: Store
    /** Whether the limiter is the store's own, which makes admission one transaction. */
    const transactional: bool
    /** The counters, if the limiter is not the store's own and there is one. */
    const redis: RedisLimiter.Limiter?

    constructor (store: Store, transactional: bool, redis: RedisLimiter.Limiter?)
      requires redis != null ==> redis.Valid() && !transactional
      ensures this.store == store && this.transactional == transactional && this.redis == redis && Valid()
    {
      this.store, this.transactional, this.redis := store, transactional, redis;
    }

    ghost predicate Valid()
      reads this, redis
    {
      redis != null ==> redis.Valid() && !transactional
    }

    function RequestInput(principal: Principal, m: RequestMetadata, now: Time): Input {
      Input(principal, m.requestId, "", m.model, m.stream, PromptTokens(m.messages), now)
    }

    /** Who decides about a request: the store's transaction, or nobody any more, because it is refused or
        only its row is left to insert. */
    ghost function Deciding(principal: Principal, m: RequestMetadata, now: Time, wire: Wire, failing: set<Statement>): Decision
      reads store, redis
    {
      var input := RequestInput(principal, m, now);
      if transactional then Transaction
      else if principal.limits.tokenBudget > 0 && ReadBudget in failing then Refuse(StoreFailed)
      else if OverBudget(principal.limits, store.attempts, RowOf(input)) then Refuse(BudgetExceeded)
      else if redis == null || (redis.limits(principal.tenant).rpmLimit <= 0 && redis.limits(principal.tenant).tpmLimit <= 0) then Insert
      else if !wire.delivery.Answered? then Transaction
      else match RedisLimiter.Judge(redis.limits, redis.state, RedisLimiter.Script(principal.tenant, input.promptTokens, now, wire.at))
           case Admitting => Insert
           case RpmExceeded => Refuse(RateLimitExceeded)
           case TpmExceeded => Refuse(TokenLimitExceeded)
    }

    /** Why a request is turned away, if it is. */
    ghost function Turned(principal: Principal, m: RequestMetadata, now: Time, wire: Wire, failing: set<Statement>): Option<Error>
      reads store, redis
    {
      match Deciding(principal, m, now, wire, failing)
      case Transaction => Refusal(RequestAdmission, store.tenants, store.requests, store.attempts, RequestInput(principal, m, now), failing)
      case Refuse(error) => Some(error)
      case Insert => if InsertRow in failing || LastId in failing then Some(StoreFailed) else None
    }

    /** Whether a row is added: with every request that is admitted, and with one whose row was inserted but
        whose id could not be read, which is turned away all the same. */
    ghost predicate AddsRow(principal: Principal, m: RequestMetadata, now: Time, wire: Wire, failing: set<Statement>)
      reads store, redis
    {
      || Turned(principal, m, now, wire, failing).None?
      || (Deciding(principal, m, now, wire, failing).Insert? && InsertRow !in failing)
    }

    /** Whether the counters are asked: only when they are in use and the budget has been read and kept. */
    ghost predicate Counted(principal: Principal, m: RequestMetadata, now: Time, failing: set<Statement>)
      reads store
    {
      && redis != null && !transactional && !(principal.limits.tokenBudget > 0 && ReadBudget in failing)
      && !OverBudget(principal.limits, store.attempts, RowOf(RequestInput(principal, m, now)))
    }

    /** A request begins with its prompt charged to the request table, or is turned away. Without
        counters the store's transaction decides; with them the budget is read first and the counters
        decide; and the transaction decides again when they do not answer. */
    method BeginRequest(caller: Option<Principal>, m: RequestMetadata, now: Time, wire: Wire, failing: set<Statement>)
      returns (r: Result<RequestTracker, BeginError>)
      requires Valid()
      modifies store, redis
      ensures Valid() && store.attempts == old(store.attempts)
      ensures caller.None? ==> r == Err(PrincipalNotFound) && store.requests == old(store.requests)
      ensures caller.None? && redis != null ==> redis.state == old(redis.state)
      ensures caller.Some? ==>
                && store.requests == old(store.requests) +
                     (if old(AddsRow(caller.value, m, now, wire, failing)) then [RowOf(RequestInput(caller.value, m, now))] else [])
                && match old(Turned(caller.value, m, now, wire, failing))
                   case Some(error) => r == Err(Rejected(error))
                   case None => r.Ok? && IsNew(r.value, caller.value, m, |store.requests|)
      ensures r.Ok? ==>
                && fresh(r.value) && |store.requests| == |old(store.requests)| + 1
                && store.requests[|store.requests| - 1] ==
                     Row(caller.value.tenant, m.requestId, "", m.model, m.stream, "started",
                         PromptTokens(m.messages), 0, PromptTokens(m.messages), now)
      ensures caller.Some? && redis != null ==>
                redis.state == if old(Counted(caller.value, m, now, failing))
                               then RedisLimiter.Requested(redis.limits, old(redis.state), caller.value.tenant,
                                                           PromptTokens(m.messages), now, wire.at, wire.delivery)
                               else old(redis.state)
    {
      hide OverBudget, OverRpm, OverTpm, Refusal, RedisLimiter.Judge, RedisLimiter.Do, RedisLimiter.Requested, PromptTokens;
      if caller.None? {
        return Err(PrincipalNotFound);
      }
      var principal := caller.value;
      var promptTokens := EstimatePromptTokens(m.messages);
      if transactional {
        r := BeginAtomic(principal, m, promptTokens, now, failing);
        return;
      }
      var input := Input(principal, m.requestId, "", m.model, m.stream, promptTokens, now);
      var refusal := store.EnforceBudget(principal.limits, RowOf(input), failing);
      if refusal.Some? {
        return Err(Rejected(refusal.value));
      }
      if redis != null {
        var denied := redis.Admit(principal.tenant, promptTokens, now, wire.at, wire.delivery);
        if denied.Some? {
          match denied.value {
            case LimiterUnavailable =>
              r := BeginAtomic(principal, m, promptTokens, now, failing);
              return;
            case RateLimitExceeded => return Err(Rejected(RateLimitExceeded));
            case TokenLimitExceeded => return Err(Rejected(TokenLimitExceeded));
          }
        }
      }
      var inserted := store.InsertUsageRecord(RowOf(input), failing);
      if inserted.Err? {
        return Err(Rejected(inserted.error));
      }
      var tracker := new RequestTracker(store, redis, principal, m.requestId, inserted.value, m.model, m.stream);
      return Ok(tracker);
    }

    predicate IsNew(t: RequestTracker, principal: Principal, m: RequestMetadata, id: nat)
      reads t
    {
      && t.store == store && t.redis == redis && t.principal == principal && t.recordId == id
      && t.model == m.model && t.stream == m.stream && t.requestId == m.requestId
      && t.latestAttemptId == 0 && t.streamCompletion == "" && t.endings == []
    }

    method BeginAtomic(principal: Principal, m: RequestMetadata, promptTokens: nat, now: Time, failing: set<Statement>)
      returns (r: Result<RequestTracker, BeginError>)
      requires promptTokens == PromptTokens(m.messages)
      modifies store
      ensures store.attempts == old(store.attempts) && (r.Ok? ==> fresh(r.value))
      ensures
        match Refusal(RequestAdmission, store.tenants, old(store.requests), store.attempts, RequestInput(principal, m, now), failing)
        case Some(error) => r == Err(Rejected(error)) && store.requests == old(store.requests)
        case None =>
          && store.requests == old(store.requests) + [RowOf(RequestInput(principal, m, now))]
          && r.Ok? && IsNew(r.value, principal, m, |store.requests|)
    {
      hide Refusal, PromptTokens;
      var begun, _ := store.BeginRequestAtomic(Input(principal, m.requestId, "", m.model, m.stream, promptTokens, now), failing);
      if begun.Err? {
        return Err(Rejected(begun.error));
      }
      var tracker := new RequestTracker(store, redis, principal, m.requestId, begun.value, m.model, m.stream);
      return Ok(tracker);
    }
  }

  /** The row that an attempt is begun with: the names it was given, trimmed, or else those of the context
      and of the request, and its prompt as its whole charge so far. */
  lemma AttemptRow(tracker: RequestTracker, m: AttemptMetadata, contextBackend: string, now: Time)
    ensures RowOf(tracker.AttemptInput(m, contextBackend, now)) ==
            Row(tracker.principal.tenant, tracker.requestId, if Trim(m.backend) != "" then Trim(m.backend) else contextBackend,
                if Trim(m.model) != "" then Trim(m.model) else tracker.model, m.stream, "started",
                m.promptTokens, 0, m.promptTokens, if m.createdAt.Some? then m.createdAt.value else now)
  {
  }

  // ---- The text of an answer ----

  /** The text of an answer is that of its choices, in order. */
  lemma ContentAppends(choices: seq<ChatService.Choice>, c: ChatService.Choice)
    ensures JoinedContent(choices + [c], |choices| + 1) == JoinedContent(choices, |choices|) + c.message.content
    ensures JoinedContent([], 0) == ""
  {
    ContentPrefix(choices, [c], |choices|);
  }

  lemma {:induction false} ContentPrefix(a: seq<ChatService.Choice>, b: seq<ChatService.Choice>, n: nat)
    requires n <= |a|
    ensures JoinedContent(a + b, n) == JoinedContent(a, n)
  {
    if n > 0 {
      ContentPrefix(a, b, n - 1);
    }
  }
}
