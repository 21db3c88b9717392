/** The adapters that the router calls: each call begins and retries its own attempts, among the work of
    other requests, before the router hears of it (internal/provider/openai/chat.go,
    internal/provider/router/chat.go). What a call answers depends on the ledger that the calls before it
    have left, so a request is a script over the ledger it starts from. */
module AdapterCalls {
  import opened Wrappers
  import opened Text
  import opened Sums
  import opened Ranking
  import opened Provider
  import opened Fallback
  import opened Governance
  import opened GovernanceStore
  import Ledger
  import Health
  import Admission
  import Attempts

  // ---- Who calls, and how a call goes ----

  /** What an attempt takes from the tracked request. */
  datatype Caller = Caller(principal: Principal, requestId: string, model: string)

  function CallerOf(t: RequestTracker): Caller
    reads t
  {
    Caller(t.principal, t.requestId, t.model)
  }

  /** The part of a call that is the same for streams and answers, as the world plays it. */
  datatype Call = Call(
    model: string, promptTokens: nat, createdAt: Ledger.Time, passes: Attempts.Script, retries: Attempts.Retries,
    others: seq<Health.Mark>, failedAt: Health.Time)

  function Metadata(c: Call, b: Backend, stream: bool): AttemptMetadata {
    AttemptMetadata(b.name, c.model, stream, c.promptTokens, Some(c.createdAt))
  }

  function CallInput(caller: Caller, c: Call, b: Backend, stream: bool): Input {
    Input(caller.principal, caller.requestId, if Trim(b.name) == "" then b.name else Trim(b.name), OrDefault(c.model, caller.model),
          stream, c.promptTokens, c.createdAt)
  }

  function ErrorOf(e: Admission.Error): Error {
    match e
    case RateLimitExceeded => RateLimitExceeded
    case TokenLimitExceeded => TokenLimitExceeded
    case BudgetExceeded => BudgetExceeded
    case StoreFailed => Other("store failed")
  }

  function CallText(e: Attempts.CallError): string {
    match e
    case HttpStatus(_, text) => text
    case DeadlineExceeded => "context deadline exceeded"
    case NetworkFailed(text) => text
    case Canceled => "context canceled"
    case OtherError(text) => text
  }

  /** What the router is told of a call that failed. */
  function Unanswered<T>(e: Attempts.LoopError): Outcome<T> {
    match e
    case Accounting(cause) => Unaccounted(ErrorOf(cause))
    case Upstream(error) => Refused(Other(CallText(error)))
  }

  /** The router is told an upstream's failure by its text, whatever it was, and goes on; of the accounting it
      is told which limit was passed, and stops. */
  lemma RouterIsTold<T>(e: Attempts.LoopError)
    ensures
      var told: Outcome<T> := Unanswered(e);
      match e
      case Upstream(HttpStatus(_, text)) => told == Refused(Other(text))
      case Upstream(NetworkFailed(text)) => told == Refused(Other(text))
      case Upstream(OtherError(text)) => told == Refused(Other(text))
      case Upstream(DeadlineExceeded) => told == Refused(Other("context deadline exceeded"))
      case Upstream(Canceled) => told == Refused(Other("context canceled"))
      case Accounting(cause) =>
        && told.Unaccounted?
        && (cause == Admission.RateLimitExceeded ==> told.error == RateLimitExceeded)
        && (cause == Admission.TokenLimitExceeded ==> told.error == TokenLimitExceeded)
        && (cause == Admission.BudgetExceeded ==> told.error == BudgetExceeded)
        && (cause == Admission.StoreFailed ==> told.error.Other?)
  {
  }

  /** The last pass of a call that starts from these rows. */
  function LastOf(tenants: set<nat>, rows: seq<Ledger.Row>, input: Input, c: Call): nat {
    Attempts.LastPass(tenants, Attempts.Table(rows, []), input, c.passes, c.retries, 0)
  }

  predicate HandsBack(tenants: set<nat>, rows: seq<Ledger.Row>, input: Input, c: Call) {
    Attempts.HandsBack(tenants, rows, input, c.passes, LastOf(tenants, rows, input, c))
  }

  function FailureOf<T>(tenants: set<nat>, rows: seq<Ledger.Row>, input: Input, c: Call): Outcome<T>
    requires !HandsBack(tenants, rows, input, c)
  {
    var k := LastOf(tenants, rows, input, c);
    Unanswered(Attempts.PassError(tenants, Attempts.Through(tenants, Attempts.Table(rows, []), input, c.passes, k), input, c.passes(k)))
  }

  // ---- Streams ----

  /** A call that opens a stream, and whether the adapter itself settles its attempt as failed when the
      stream breaks off. */
  datatype Adapter = Adapter(call: Call, stream: OpenStream, settles: bool)

  type Adapters = (nat, Backend) -> Adapter

  function OpenOutcome(tenants: set<nat>, rows: seq<Ledger.Row>, caller: Caller, a: Adapter, b: Backend): Outcome<OpenStream> {
    var input := CallInput(caller, a.call, b, true);
    if HandsBack(tenants, rows, input, a.call) then Answered(a.stream) else FailureOf(tenants, rows, input, a.call)
  }

  function RowsAfterOpen(tenants: set<nat>, rows: seq<Ledger.Row>, caller: Caller, a: Adapter, b: Backend): seq<Ledger.Row> {
    var input := CallInput(caller, a.call, b, true);
    var t := Attempts.Through(tenants, Attempts.Table(rows, []), input, a.call.passes, LastOf(tenants, rows, input, a.call) + 1);
    if HandsBack(tenants, rows, input, a.call) && a.settles && t.own != []
    then Attempts.SettleLast(t, Attempts.FailedSettlement(input)).rows else t.rows
  }

  /** The ledger before call i, the calls before it having been made. */
  function RowsBeforeOpen(tenants: set<nat>, rows: seq<Ledger.Row>, caller: Caller, cands: seq<Backend>, adapters: Adapters, i: nat): seq<Ledger.Row>
    requires i <= |cands|
  {
    if i == 0 then rows
    else RowsAfterOpen(tenants, RowsBeforeOpen(tenants, rows, caller, cands, adapters, i - 1), caller,
                       adapters(i - 1, cands[i - 1]), cands[i - 1])
  }

  /** What each candidate answers when it is called in its turn. */
  function OpenScript(tenants: set<nat>, rows: seq<Ledger.Row>, caller: Caller, cands: seq<Backend>, adapters: Adapters): Script<OpenStream> {
    (i: nat, b: Backend) =>
      var a := adapters(i, b);
      Attempt(a.call.others,
              if i < |cands| && cands[i] == b
              then OpenOutcome(tenants, RowsBeforeOpen(tenants, rows, caller, cands, adapters, i), caller, a, b)
              else Refused(Other("")),
              a.call.failedAt)
  }

  /** The row of the given id is an attempt of this request at the backend, whatever it was settled as. */
  predicate AttemptOf(rows: seq<Ledger.Row>, id: nat, caller: Caller, b: Backend) {
    && 1 <= id <= |rows|
    && rows[id - 1].tenant == caller.principal.tenant && rows[id - 1].requestId == caller.requestId
    && rows[id - 1].backend == (if Trim(b.name) == "" then b.name else Trim(b.name))
  }

  /** A handed-back attempt is the last row that the call began, still as it was begun. */
  lemma HandedBackRow(t: Attempts.Table, after: seq<Ledger.Row>, own: seq<nat>, tenants: set<nat>, input: Input, p: Attempts.Pass,
                      outcome: Attempts.Opening)
    requires Attempts.EndsWith(t, after, own, tenants, input, p, outcome) && outcome.HandedBack?
    ensures own != [] && outcome.handle.recordId == own[|own| - 1]
    ensures 1 <= own[|own| - 1] <= |after| && after[own[|own| - 1] - 1] == RowOf(input)
  {
    hide Refusal, RowOf, Disturbed;
    var begun := Attempts.Begun(t, input, p);
    DisturbedKeepsOwn(begun.rows, p.during, begun.own, |p.during|, own[|own| - 1]);
  }

  /** One call: attempts are begun until one is handed back or the call fails; an attempt that is handed
      back may afterwards be settled as failed by the adapter itself. */
  method OpenOne(tracker: RequestTracker, b: Backend, a: Adapter) returns (outcome: Outcome<OpenStream>)
    modifies tracker`latestAttemptId, tracker`latestAttemptTok, tracker.store
    ensures tracker.store.requests == old(tracker.store.requests)
    ensures outcome == OpenOutcome(tracker.store.tenants, old(tracker.store.attempts), CallerOf(tracker), a, b)
    ensures tracker.store.attempts == RowsAfterOpen(tracker.store.tenants, old(tracker.store.attempts), CallerOf(tracker), a, b)
    ensures outcome.Answered? ==>
              && tracker.latestAttemptTok == a.call.promptTokens
              && AttemptOf(tracker.store.attempts, tracker.latestAttemptId, CallerOf(tracker), b)
  {
    hide Attempts.LastPass, Attempts.AfterPass, Attempts.Admitted, Attempts.PassError, Updated, Trim, Attempts.FailedSettlement;
    var m := Metadata(a.call, b, true);
    ghost var rows, tenants, input := tracker.store.attempts, tracker.store.tenants, CallInput(CallerOf(tracker), a.call, b, true);
    ghost var t := Attempts.Table(rows, []);
    ghost var k := LastOf(tenants, rows, input, a.call);
    assert input == tracker.AttemptInput(m, b.name, a.call.createdAt);
    var opening, passes, waited, own := Attempts.DoRequest(tracker, m, b.name, a.call.createdAt, a.call.passes, a.call.retries);
    match opening {
      case HandedBack(handle) =>
        HandedBackRow(Attempts.Through(tenants, t, input, a.call.passes, k), tracker.store.attempts, own, tenants, input, a.call.passes(k), opening);
        assert AttemptOf(tracker.store.attempts, tracker.latestAttemptId, CallerOf(tracker), b);
        if a.settles {
          Attempts.InputModel(tracker, m, b.name, a.call.createdAt);
          var _ := Attempts.FailAttempt(tracker.store, handle, a.call.model, false, input);
        }
        outcome := Answered(a.stream);
      case Refused(error) =>
        outcome := Unanswered(error);
    }
  }

  /** The calls that the router makes, up to the one that decides. */
  method OpenStreams(tracker: RequestTracker, cands: seq<Backend>, adapters: Adapters)
    modifies tracker`latestAttemptId, tracker`latestAttemptTok, tracker.store
    ensures tracker.store.requests == old(tracker.store.requests)
    ensures
      var rows, tenants, caller := old(tracker.store.attempts), tracker.store.tenants, CallerOf(tracker);
      var awaited := AwaitedScript(OpenScript(tenants, rows, caller, cands, adapters));
      var k := Deciding(cands, awaited, 0);
      && tracker.store.attempts == RowsBeforeOpen(tenants, rows, caller, cands, adapters, if k < |cands| then k + 1 else k)
      && (k < |cands| && awaited(k, cands[k]).outcome.Answered? ==>
            && awaited(k, cands[k]).outcome.value == adapters(k, cands[k]).stream.events
            && tracker.latestAttemptTok == adapters(k, cands[k]).call.promptTokens
            && AttemptOf(tracker.store.attempts, tracker.latestAttemptId, caller, cands[k]))
  {
    hide AttemptOf, FirstEvent, OpenOutcome, RowsAfterOpen, Awaited;
    ghost var rows, tenants, caller := tracker.store.attempts, tracker.store.tenants, CallerOf(tracker);
    ghost var script := OpenScript(tenants, rows, caller, cands, adapters);
    ghost var awaited := AwaitedScript(script);
    ghost var k := Deciding(cands, awaited, 0);
    for i := 0 to |cands|
      invariant i <= k && tracker.store.requests == old(tracker.store.requests)
      invariant tracker.store.attempts == RowsBeforeOpen(tenants, rows, caller, cands, adapters, i)
      invariant CallerOf(tracker) == caller
    {
      var outcome := OpenOne(tracker, cands[i], adapters(i, cands[i]));
      assert script(i, cands[i]).outcome == outcome;
      assert awaited(i, cands[i]).outcome == Awaited(cands[i], outcome);
      if !Awaited(cands[i], outcome).Refused? {
        assert k == i;
        AwaitedMeans(cands[i], outcome);
        OpenedIsItsStream(tenants, RowsBeforeOpen(tenants, rows, caller, cands, adapters, i), caller, adapters(i, cands[i]), cands[i]);
        return;
      }
    }
  }

  lemma OpenedIsItsStream(tenants: set<nat>, rows: seq<Ledger.Row>, caller: Caller, a: Adapter, b: Backend)
    ensures OpenOutcome(tenants, rows, caller, a, b).Answered? ==> OpenOutcome(tenants, rows, caller, a, b).value == a.stream
  {
    hide HandsBack, Attempts.PassError;
  }

  // ---- Answers ----

  /** A call that is not streamed: what others do while the answer is read, whether it decodes, and
      whether settling it fails. */
  datatype Asked = Asked(call: Call, settling: seq<OtherOp>, answer: Result<Response, Attempts.CallError>, settleFails: bool)

  type Answers = (nat, Backend) -> Asked

  function BodyOf(a: Asked): Attempts.Body {
    match a.answer
    case Ok(r) => Attempts.Decoded(r.model, Attempts.Usage(r.usage.promptTokens, r.usage.completionTokens, r.usage.totalTokens))
    case Err(error) => Attempts.Undecodable(error)
  }

  function AnswerOutcome(tenants: set<nat>, rows: seq<Ledger.Row>, caller: Caller, a: Asked, b: Backend): Outcome<Response> {
    var input := CallInput(caller, a.call, b, false);
    if !HandsBack(tenants, rows, input, a.call) then FailureOf(tenants, rows, input, a.call)
    else if a.settleFails then Unanswered(Attempts.Accounting(Admission.StoreFailed))
    else match a.answer
         case Ok(response) => Answered(response)
         case Err(error) => Unanswered(Attempts.Upstream(error))
  }

  function TableAfterAnswer(tenants: set<nat>, rows: seq<Ledger.Row>, caller: Caller, a: Asked, b: Backend): Attempts.Table {
    var input := CallInput(caller, a.call, b, false);
    Attempts.AfterCall(tenants, rows, input, a.call.passes, LastOf(tenants, rows, input, a.call), a.settling, BodyOf(a), a.settleFails)
  }

  function RowsBeforeAnswer(tenants: set<nat>, rows: seq<Ledger.Row>, caller: Caller, cands: seq<Backend>, answers: Answers, i: nat): seq<Ledger.Row>
    requires i <= |cands|
  {
    if i == 0 then rows
    else TableAfterAnswer(tenants, RowsBeforeAnswer(tenants, rows, caller, cands, answers, i - 1), caller,
                          answers(i - 1, cands[i - 1]), cands[i - 1]).rows
  }

  function AnswerScript(tenants: set<nat>, rows: seq<Ledger.Row>, caller: Caller, cands: seq<Backend>, answers: Answers): Script<Response> {
    (i: nat, b: Backend) =>
      var a := answers(i, b);
      Attempt(a.call.others,
              if i < |cands| && cands[i] == b
              then AnswerOutcome(tenants, RowsBeforeAnswer(tenants, rows, caller, cands, answers, i), caller, a, b)
              else Refused(Other("")),
              a.call.failedAt)
  }

  /** The rows of a call, column by column: as its attempts begin, and as the winner's is settled with the usage
      that its answer reports. */
  lemma CallRows(caller: Caller, a: Asked, b: Backend, stream: bool)
    ensures
      var c := a.call;
      RowOf(CallInput(caller, c, b, stream)) ==
      Ledger.Row(caller.principal.tenant, caller.requestId, if Trim(b.name) != "" then Trim(b.name) else b.name,
                 if Trim(c.model) != "" then Trim(c.model) else caller.model, stream, "started", c.promptTokens, 0, c.promptTokens, c.createdAt)
    ensures a.answer.Ok? ==>
              var row, begun, r := Attempts.WinnerRow(CallInput(caller, a.call, b, stream), BodyOf(a)), RowOf(CallInput(caller, a.call, b, stream)), a.answer.value;
              && row.status == "succeeded" && row.model == (if Trim(r.model) != "" then Trim(r.model) else begun.model)
              && row.promptTokens == (if r.usage.promptTokens != 0 then r.usage.promptTokens else begun.promptTokens)
              && row.completionTokens == r.usage.completionTokens
              && row.totalTokens == (if r.usage.totalTokens != 0 then r.usage.totalTokens else row.promptTokens + row.completionTokens)
              && row.(status := "started", model := begun.model, promptTokens := begun.promptTokens, completionTokens := 0,
                      totalTokens := begun.totalTokens) == begun
    ensures a.answer.Err? ==> BodyOf(a).Undecodable?
  {
  }

  /** A call whose last attempt is handed back answers what the body decodes to; a body that does not decode is
      a failure that the router hears of, and a settlement that fails one that ends the request. */
  lemma WhatACallAnswers(tenants: set<nat>, rows: seq<Ledger.Row>, caller: Caller, a: Asked, b: Backend)
    ensures
      var answered := AnswerOutcome(tenants, rows, caller, a, b);
      var handed := HandsBack(tenants, rows, CallInput(caller, a.call, b, false), a.call);
      && (answered.Answered? <==> handed && !a.settleFails && a.answer.Ok?)
      && (answered.Answered? ==> answered.value == a.answer.value)
      && (handed && a.settleFails ==> answered.Unaccounted?)
      && (handed && !a.settleFails && a.answer.Err? ==> answered == Refused(Other(CallText(a.answer.error))))
  {
    hide HandsBack, Attempts.PassError, CallText;
  }

  method AskOne(tracker: RequestTracker, b: Backend, a: Asked) returns (outcome: Outcome<Response>)
    modifies tracker`latestAttemptId, tracker`latestAttemptTok, tracker.store
    ensures tracker.store.requests == old(tracker.store.requests)
    ensures outcome == AnswerOutcome(tracker.store.tenants, old(tracker.store.attempts), CallerOf(tracker), a, b)
    ensures tracker.store.attempts == TableAfterAnswer(tracker.store.tenants, old(tracker.store.attempts), CallerOf(tracker), a, b).rows
  {
    hide Attempts.LastPass, Attempts.Through, Attempts.AfterCall, Attempts.Admitted, Attempts.PassError, Trim;
    var m := Metadata(a.call, b, false);
    ghost var input := CallInput(CallerOf(tracker), a.call, b, false);
    assert input == tracker.AttemptInput(m, b.name, a.call.createdAt);
    var r := Attempts.DoJSONRequest(tracker, m, b.name, a.call.createdAt, a.call.passes, a.call.retries, a.settling, BodyOf(a), a.settleFails);
    match r {
      case NotAnswered(error) => outcome := Unanswered(error);
      case Answered(_, _) => outcome := Answered(a.answer.value);
    }
  }

  /** The calls of a request that is not streamed, up to the one that decides. */
  method AskAll(tracker: RequestTracker, cands: seq<Backend>, answers: Answers)
    modifies tracker`latestAttemptId, tracker`latestAttemptTok, tracker.store
    ensures tracker.store.requests == old(tracker.store.requests)
    ensures
      var rows, tenants, caller := old(tracker.store.attempts), tracker.store.tenants, CallerOf(tracker);
      var k := Deciding(cands, AnswerScript(tenants, rows, caller, cands, answers), 0);
      tracker.store.attempts == RowsBeforeAnswer(tenants, rows, caller, cands, answers, if k < |cands| then k + 1 else k)
  {
    hide AnswerOutcome, TableAfterAnswer;
    ghost var rows, tenants, caller := tracker.store.attempts, tracker.store.tenants, CallerOf(tracker);
    ghost var script := AnswerScript(tenants, rows, caller, cands, answers);
    ghost var k := Deciding(cands, script, 0);
    for i := 0 to |cands|
      invariant i <= k && tracker.store.requests == old(tracker.store.requests)
      invariant tracker.store.attempts == RowsBeforeAnswer(tenants, rows, caller, cands, answers, i)
      invariant CallerOf(tracker) == caller
    {
      var outcome := AskOne(tracker, cands[i], answers(i, cands[i]));
      assert script(i, cands[i]).outcome == outcome;
      if !outcome.Refused? {
        assert k == i;
        return;
      }
    }
  }

  // ---- Conservation over a whole request ----

  /** What a call adds to the tenant's total: what others add, a prompt for each attempt, and for the
      winner its total in place of its prompt. */
  function Charge(tenants: set<nat>, rows: seq<Ledger.Row>, caller: Caller, a: Asked, b: Backend): int {
    var input := CallInput(caller, a.call, b, false);
    var k := LastOf(tenants, rows, input, a.call);
    var attempts := |TableAfterAnswer(tenants, rows, caller, a, b).own|;
    Attempts.AddedByOthers(tenants, rows, input, a.call.passes, k, a.settling)
    + attempts * a.call.promptTokens
    + if AnswerOutcome(tenants, rows, caller, a, b).Answered? && BodyOf(a).Decoded?
      then Attempts.WinnerTotal(a.call.promptTokens, BodyOf(a).usage) - a.call.promptTokens else 0
  }

  function Charges(tenants: set<nat>, rows: seq<Ledger.Row>, caller: Caller, cands: seq<Backend>, answers: Answers, n: nat): int
    requires n <= |cands|
  {
    if n == 0 then 0
    else
      Charges(tenants, rows, caller, cands, answers, n - 1)
      + Charge(tenants, RowsBeforeAnswer(tenants, rows, caller, cands, answers, n - 1), caller, answers(n - 1, cands[n - 1]), cands[n - 1])
  }

  ghost predicate SettlesAll(a: Asked) {
    !a.settleFails && Attempts.AllSettle(a.call.passes)
  }

  /** A call is answered exactly when its attempt wins. */
  lemma AnsweredWins(tenants: set<nat>, rows: seq<Ledger.Row>, caller: Caller, a: Asked, b: Backend)
    requires !a.settleFails
    ensures
      var input := CallInput(caller, a.call, b, false);
      AnswerOutcome(tenants, rows, caller, a, b).Answered? <==>
      Attempts.Wins(tenants, rows, input, a.call.passes, LastOf(tenants, rows, input, a.call), BodyOf(a))
  {
    hide Attempts.HandsBack, Attempts.PassError, LastOf, CallInput;
  }

  lemma LessOne(attempts: int, won: bool, p: int)
    ensures (attempts - if won then 1 else 0) * p == attempts * p - if won then p else 0
  {
  }

  lemma CallCharge(tenants: set<nat>, rows: seq<Ledger.Row>, caller: Caller, a: Asked, b: Backend)
    requires SettlesAll(a)
    ensures
      var tokens := Ledger.TokensOf(caller.principal.tenant);
      && All(TableAfterAnswer(tenants, rows, caller, a, b).rows, tokens) == All(rows, tokens) + Charge(tenants, rows, caller, a, b)
      && |TableAfterAnswer(tenants, rows, caller, a, b).own| <= a.call.retries.maxRetries + 1
  {
    hide All, Attempts.AfterCall, Attempts.Wins, Attempts.AddedByOthers, Attempts.OwnRows, Attempts.LastPass, Attempts.WinnerTotal, AnswerOutcome;
    var input := CallInput(caller, a.call, b, false);
    Attempts.CallConserves(tenants, rows, input, a.call.passes, a.call.retries, a.settling, BodyOf(a));
    AnsweredWins(tenants, rows, caller, a, b);
    LessOne(|TableAfterAnswer(tenants, rows, caller, a, b).own|, AnswerOutcome(tenants, rows, caller, a, b).Answered?, a.call.promptTokens);
    assert AnswerOutcome(tenants, rows, caller, a, b).Answered? ==> BodyOf(a).Decoded? by { WinsDecoded(tenants, rows, caller, a, b); }
  }

  lemma WinsDecoded(tenants: set<nat>, rows: seq<Ledger.Row>, caller: Caller, a: Asked, b: Backend)
    ensures AnswerOutcome(tenants, rows, caller, a, b).Answered? ==> BodyOf(a).Decoded?
  {
    hide HandsBack, Attempts.PassError, CallInput;
  }

  /** Conservation over all calls of a request, whatever other requests do meanwhile: when settlement
      works, the tenant's attempt total grows by the charges of the calls that are made. */
  lemma {:induction false} RequestConserves(tenants: set<nat>, rows: seq<Ledger.Row>, caller: Caller, cands: seq<Backend>, answers: Answers, n: nat)
    requires n <= |cands| && forall i :: 0 <= i < n ==> SettlesAll(answers(i, cands[i]))
    ensures
      var tokens := Ledger.TokensOf(caller.principal.tenant);
      All(RowsBeforeAnswer(tenants, rows, caller, cands, answers, n), tokens) ==
      All(rows, tokens) + Charges(tenants, rows, caller, cands, answers, n)
  {
    hide All, Charge, TableAfterAnswer, SettlesAll;
    if n > 0 {
      RequestConserves(tenants, rows, caller, cands, answers, n - 1);
      CallCharge(tenants, RowsBeforeAnswer(tenants, rows, caller, cands, answers, n - 1), caller, answers(n - 1, cands[n - 1]), cands[n - 1]);
    }
  }
}
