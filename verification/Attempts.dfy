/** The retry loop of the OpenAI adapter and what it leaves in the attempt ledger
    (internal/provider/openai/chat.go). */
module Attempts {
  import opened Wrappers
  import opened Sums
  import opened Ledger
  import opened Admission
  import opened GovernanceStore
  import opened Governance

  // ---- Errors and retries ----

  datatype CallError =
    | HttpStatus(code: int, text: string) | DeadlineExceeded | NetworkFailed(text: string) | Canceled | OtherError(text: string)

  predicate ShouldRetryHTTPStatus(status: int) {
    status == 408 || status == 429 || status >= 500
  }

  predicate ShouldRetryRequest(contextDone: bool, e: CallError) {
    if contextDone || e.Canceled? then false
    else if e.HttpStatus? && ShouldRetryHTTPStatus(e.code) then true
    else e.DeadlineExceeded? || e.NetworkFailed?
  }

  datatype Answer = Responded | Failed(error: CallError)

  /** One pass through the loop, as the world plays it: what other requests do to the attempt table before
      the attempt begins and while it is answered, which statements of its admission fail, what the
      upstream answers, whether settling the failure fails, whether the context is done when the failure
      is judged, and whether it ends the wait before the next pass. */
  datatype Pass = Pass(before: seq<OtherOp>, failing: set<Statement>, during: seq<OtherOp>, answer: Answer,
                       settleFails: bool, contextDone: bool, waitCut: bool)

  type Script = nat -> Pass

  datatype LoopError = Accounting(cause: Error) | Upstream(error: CallError)

  datatype Opening = HandedBack(handle: AttemptHandle) | Refused(error: LoopError)

  datatype Retries = Retries(maxRetries: nat, backoff: nat)

  /** What New makes of the configuration, with the back-off in milliseconds. */
  function Configured(maxRetries: int, backoff: int): Retries {
    Retries(if maxRetries < 0 then 0 else maxRetries, if backoff <= 0 then 200 else backoff)
  }

  // ---- The ledger of a call ----

  /** The attempt table, and the ids of the rows that this call has begun. */
  datatype Table = Table(rows: seq<Row>, own: seq<nat>)

  function FailedSettlement(input: Input): Settlement {
    Settlement(input.model, "failed", input.promptTokens, 0, input.promptTokens)
  }

  /** The row of an attempt that was settled as failed. */
  function FailedRow(input: Input): Row {
    Settled(RowOf(input), FailedSettlement(input))
  }

  function WithOthers(t: Table, ops: seq<OtherOp>): Table {
    t.(rows := Disturbed(t.rows, ops, t.own, |ops|))
  }

  predicate Admitted(tenants: set<nat>, t: Table, input: Input, p: Pass) {
    Refusal(AttemptAdmission, tenants, [], WithOthers(t, p.before).rows, input, p.failing).None?
  }

  /** The table once the attempt of a pass has begun. */
  function Begun(t: Table, input: Input, p: Pass): (r: Table)
    ensures r.own != []
  {
    var others := WithOthers(t, p.before);
    Table(others.rows + [RowOf(input)], t.own + [|others.rows| + 1])
  }

  function SettleLast(t: Table, u: Settlement): Table
    requires t.own != []
  {
    t.(rows := Updated(t.rows, t.own[|t.own| - 1], u))
  }

  /** The table after a pass: others have worked, and if the attempt was admitted there is a row more,
      settled as failed if the upstream failed and settling worked. */
  function AfterPass(tenants: set<nat>, t: Table, input: Input, p: Pass): Table {
    if !Admitted(tenants, t, input, p) then WithOthers(t, p.before)
    else
      var open := WithOthers(Begun(t, input, p), p.during);
      if p.answer.Responded? || p.settleFails then open else SettleLast(open, FailedSettlement(input))
  }

  function Through(tenants: set<nat>, t: Table, input: Input, script: Script, n: nat): Table {
    if n == 0 then t else AfterPass(tenants, Through(tenants, t, input, script, n - 1), input, script(n - 1))
  }

  /** Pass i ends in another pass. */
  predicate GoesOn(tenants: set<nat>, t: Table, input: Input, script: Script, retries: Retries, i: nat) {
    var p := script(i);
    && Admitted(tenants, Through(tenants, t, input, script, i), input, p) && p.answer.Failed? && !p.settleFails
    && i < retries.maxRetries && ShouldRetryRequest(p.contextDone, p.answer.error) && !p.waitCut
  }

  /** The last pass, from pass i on. */
  function LastPass(tenants: set<nat>, t: Table, input: Input, script: Script, retries: Retries, i: nat): (k: nat)
    requires i <= retries.maxRetries
    ensures i <= k <= retries.maxRetries
    ensures forall j :: i <= j < k ==> GoesOn(tenants, t, input, script, retries, j)
    ensures !GoesOn(tenants, t, input, script, retries, k)
    decreases retries.maxRetries - i
  {
    if i < retries.maxRetries && GoesOn(tenants, t, input, script, retries, i)
    then LastPass(tenants, t, input, script, retries, i + 1) else i
  }

  /** The time spent in the first n waits. */
  function WaitTime(backoff: nat, n: nat): nat {
    if n == 0 then 0 else WaitTime(backoff, n - 1) + backoff * n
  }

  lemma {:induction false} WaitTimeIsTriangular(backoff: nat, n: nat)
    ensures 2 * WaitTime(backoff, n) == backoff * (n * (n + 1))
  {
    if n > 0 {
      WaitTimeIsTriangular(backoff, n - 1);
      assert backoff * ((n - 1) * n) + 2 * (backoff * n) == backoff * (n * (n + 1));
    }
  }

  /** However many passes there are, back-off takes at most backoff times the triangular number of
      maxRetries. */
  lemma {:induction false} WaitIsBounded(backoff: nat, n: nat, maxRetries: nat)
    requires n <= maxRetries
    ensures 2 * WaitTime(backoff, n) <= backoff * (maxRetries * (maxRetries + 1))
    decreases maxRetries - n
  {
    if n == maxRetries {
      WaitTimeIsTriangular(backoff, n);
    } else {
      WaitIsBounded(backoff, n + 1, maxRetries);
    }
  }

  // ---- Conservation ----

  /** The rows of this call, in the order begun, behind the first `base` rows: all failed but the last,
      which is as given. */
  predicate OwnRows(t: Table, base: nat, input: Input, last: Row) {
    && (forall i :: 0 <= i < |t.own| ==> base < t.own[i] <= |t.rows|)
    && (forall i, j :: 0 <= i < j < |t.own| ==> t.own[i] < t.own[j])
    && (forall i :: 0 <= i < |t.own| ==> t.rows[t.own[i] - 1] == if i == |t.own| - 1 then last else FailedRow(input))
  }

  lemma OthersKeepOwnRows(t: Table, ops: seq<OtherOp>, base: nat, input: Input, last: Row)
    requires OwnRows(t, base, input, last)
    ensures OwnRows(WithOthers(t, ops), base, input, last)
  {
    hide Disturbed;
    forall i | 0 <= i < |t.own| ensures WithOthers(t, ops).rows[t.own[i] - 1] == t.rows[t.own[i] - 1] {
      DisturbedKeepsOwn(t.rows, ops, t.own, |ops|, t.own[i]);
    }
  }

  lemma BeginKeepsOwnRows(t: Table, input: Input, p: Pass, base: nat)
    requires OwnRows(t, base, input, FailedRow(input)) && base <= |t.rows|
    ensures OwnRows(Begun(t, input, p), base, input, RowOf(input))
  {
    hide Disturbed, RowOf, FailedRow;
    OthersKeepOwnRows(t, p.before, base, input, FailedRow(input));
  }

  lemma SettleKeepsOwnRows(t: Table, base: nat, input: Input, row: Row, u: Settlement)
    requires t.own != [] && OwnRows(t, base, input, row)
    ensures OwnRows(SettleLast(t, u), base, input, Settled(row, u))
  {
    hide Settled, FailedRow;
  }

  /** A pass whose settlement works leaves all rows of the call failed, but for one that is handed back. */
  lemma PassKeepsOwnRows(tenants: set<nat>, t: Table, input: Input, p: Pass, base: nat)
    requires OwnRows(t, base, input, FailedRow(input)) && base <= |t.rows| && !p.settleFails
    ensures
      var after := AfterPass(tenants, t, input, p);
      && base <= |after.rows|
      && OwnRows(after, base, input,
                 if Admitted(tenants, t, input, p) && p.answer.Responded? then RowOf(input) else FailedRow(input))
  {
    hide OwnRows, Refusal, Disturbed, Settled;
    OthersKeepOwnRows(t, p.before, base, input, FailedRow(input));
    BeginKeepsOwnRows(t, input, p, base);
    OthersKeepOwnRows(Begun(t, input, p), p.during, base, input, RowOf(input));
    SettleKeepsOwnRows(WithOthers(Begun(t, input, p), p.during), base, input, RowOf(input), FailedSettlement(input));
  }

  ghost predicate AllSettle(script: Script) {
    forall i :: !script(i).settleFails
  }

  lemma {:induction false} FailedPasses(tenants: set<nat>, rows: seq<Row>, input: Input, script: Script, retries: Retries, n: nat)
    requires AllSettle(script)
    requires forall j :: 0 <= j < n ==> GoesOn(tenants, Table(rows, []), input, script, retries, j)
    ensures
      var t := Through(tenants, Table(rows, []), input, script, n);
      |t.own| == n && |rows| <= |t.rows| && OwnRows(t, |rows|, input, FailedRow(input))
  {
    hide OwnRows, FailedRow, Admitted, AfterPass;
    if n == 0 {
      NoOwnRows(rows, input, FailedRow(input));
    } else {
      FailedPasses(tenants, rows, input, script, retries, n - 1);
      assert GoesOn(tenants, Table(rows, []), input, script, retries, n - 1);
      var t := Through(tenants, Table(rows, []), input, script, n - 1);
      PassKeepsOwnRows(tenants, t, input, script(n - 1), |rows|);
      PassCounts(tenants, t, input, script(n - 1));
    }
  }

  lemma NoOwnRows(rows: seq<Row>, input: Input, last: Row)
    ensures OwnRows(Table(rows, []), |rows|, input, last)
  {
  }

  lemma PassCounts(tenants: set<nat>, t: Table, input: Input, p: Pass)
    ensures |AfterPass(tenants, t, input, p).own| == |t.own| + if Admitted(tenants, t, input, p) then 1 else 0
  {
    hide Admitted, Disturbed, Settled;
  }

  /** By how much other requests change a sum over the table during a pass. */
  function OthersAdd(tenants: set<nat>, t: Table, input: Input, p: Pass, weight: Weight): int {
    DisturbedBy(t.rows, p.before, t.own, |p.before|, weight)
    + if Admitted(tenants, t, input, p) then
        DisturbedBy(Begun(t, input, p).rows, p.during, Begun(t, input, p).own, |p.during|, weight)
      else 0
  }

  function AddedThrough(tenants: set<nat>, t: Table, input: Input, script: Script, n: nat, weight: Weight): int {
    if n == 0 then 0
    else
      AddedThrough(tenants, t, input, script, n - 1, weight)
      + OthersAdd(tenants, Through(tenants, t, input, script, n - 1), input, script(n - 1), weight)
  }

  lemma SettleLastSum(t: Table, base: nat, input: Input, row: Row, u: Settlement)
    requires t.own != [] && OwnRows(t, base, input, row)
    ensures
      var tokens := TokensOf(input.principal.tenant);
      All(SettleLast(t, u).rows, tokens) == All(t.rows, tokens) + tokens(Settled(row, u)) - tokens(row)
  {
    hide All, Updated;
    UpdatedSum(t.rows, t.own[|t.own| - 1], u, TokensOf(input.principal.tenant));
  }

  /** What a pass adds to the tenant's total: what others add, and the prompt of its attempt. */
  lemma PassTotal(tenants: set<nat>, t: Table, input: Input, p: Pass, base: nat)
    requires OwnRows(t, base, input, FailedRow(input)) && base <= |t.rows|
    ensures
      var tokens := TokensOf(input.principal.tenant);
      All(AfterPass(tenants, t, input, p).rows, tokens) ==
      All(t.rows, tokens) + OthersAdd(tenants, t, input, p, tokens) + if Admitted(tenants, t, input, p) then input.promptTokens else 0
  {
    hide All, Admitted, Disturbed, DisturbedBy, OwnRows, Updated;
    var tokens := TokensOf(input.principal.tenant);
    var others, begun := WithOthers(t, p.before), Begun(t, input, p);
    DisturbedSum(t.rows, p.before, t.own, |p.before|, tokens);
    Appended(others.rows, RowOf(input), tokens);
    DisturbedSum(begun.rows, p.during, begun.own, |p.during|, tokens);
    BeginKeepsOwnRows(t, input, p, base);
    OthersKeepOwnRows(begun, p.during, base, input, RowOf(input));
    SettleLastSum(WithOthers(begun, p.during), base, input, RowOf(input), FailedSettlement(input));
  }

  lemma {:induction false} FailedTotal(tenants: set<nat>, rows: seq<Row>, input: Input, script: Script, retries: Retries, n: nat)
    requires AllSettle(script)
    requires forall j :: 0 <= j < n ==> GoesOn(tenants, Table(rows, []), input, script, retries, j)
    ensures
      var tokens := TokensOf(input.principal.tenant);
      All(Through(tenants, Table(rows, []), input, script, n).rows, tokens) ==
      All(rows, tokens) + AddedThrough(tenants, Table(rows, []), input, script, n, tokens) + n * input.promptTokens
  {
    hide All, OwnRows, Admitted, AfterPass, OthersAdd, FailedRow;
    if n > 0 {
      FailedTotal(tenants, rows, input, script, retries, n - 1);
      FailedPasses(tenants, rows, input, script, retries, n - 1);
      assert GoesOn(tenants, Table(rows, []), input, script, retries, n - 1);
      PassTotal(tenants, Through(tenants, Table(rows, []), input, script, n - 1), input, script(n - 1), |rows|);
      assert n * input.promptTokens == (n - 1) * input.promptTokens + input.promptTokens;
    }
  }

  // ---- The loop ----

  /** The error of a pass that hands nothing back. */
  function PassError(tenants: set<nat>, t: Table, input: Input, p: Pass): LoopError
    requires !(Admitted(tenants, t, input, p) && p.answer.Responded?)
  {
    match Refusal(AttemptAdmission, tenants, [], WithOthers(t, p.before).rows, input, p.failing)
    case Some(error) => Accounting(error)
    case None => if p.settleFails then Accounting(StoreFailed) else Upstream(p.answer.error)
  }

  /** What a pass makes of the attempt table, and how it ends. */
  ghost predicate EndsWith(t: Table, after: seq<Row>, own: seq<nat>, tenants: set<nat>, input: Input, p: Pass, outcome: Opening) {
    && Table(after, own) == AfterPass(tenants, t, input, p)
    && if Admitted(tenants, t, input, p) && p.answer.Responded? then
         own != [] && outcome == HandedBack(AttemptHandle(own[|own| - 1], input.model, input.promptTokens))
       else outcome == Refused(PassError(tenants, t, input, p))
  }

  /** Only an attempt that was admitted, failed upstream and was settled ends in an upstream error. */
  lemma UpstreamMeansSettled(tenants: set<nat>, t: Table, input: Input, p: Pass)
    requires !(Admitted(tenants, t, input, p) && p.answer.Responded?)
    ensures PassError(tenants, t, input, p).Upstream? <==>
              Admitted(tenants, t, input, p) && p.answer.Failed? && !p.settleFails
    ensures PassError(tenants, t, input, p).Upstream? ==> p.answer.error == PassError(tenants, t, input, p).error
  {
    hide Refusal;
  }

  lemma AdmissionIgnoresRequests(tenants: set<nat>, requests: seq<Row>, attempts: seq<Row>, input: Input, failing: set<Statement>)
    ensures Refusal(AttemptAdmission, tenants, requests, attempts, input, failing)
         == Refusal(AttemptAdmission, tenants, [], attempts, input, failing)
  {
    hide OverBudget, OverRpm, OverTpm;
  }

  /** Settling the attempt that has the given id as failed. */
  method FailAttempt(store: Store, h: AttemptHandle, model: string, fails: bool, ghost input: Input) returns (ok: bool)
    requires h.defaultModel == input.model && h.promptTokens == input.promptTokens
    requires input.model == OrDefault(model, input.model)
    modifies store
    ensures ok == !fails && store.requests == old(store.requests)
    ensures store.attempts == if ok then Updated(old(store.attempts), h.recordId, FailedSettlement(input)) else old(store.attempts)
  {
    ok := Complete(store, h, AttemptResult(model, "failed", 0, 0, 0), fails);
  }

  /** One attempt among the work of other requests: begun, answered, and settled when it failed. */
  method TryOnce(tracker: RequestTracker, m: AttemptMetadata, contextBackend: string, now: Time, p: Pass, own: seq<nat>)
    returns (outcome: Opening, ids: seq<nat>)
    modifies tracker`latestAttemptId, tracker`latestAttemptTok, tracker.store
    ensures tracker.store.requests == old(tracker.store.requests)
    ensures EndsWith(Table(old(tracker.store.attempts), own), tracker.store.attempts, ids, tracker.store.tenants,
                     tracker.AttemptInput(m, contextBackend, now), p, outcome)
    ensures m.stream && |ids| > |own| ==> tracker.latestAttemptId == ids[|own|] && tracker.latestAttemptTok == m.promptTokens
    ensures !m.stream || |ids| <= |own| ==>
              tracker.latestAttemptId == old(tracker.latestAttemptId) && tracker.latestAttemptTok == old(tracker.latestAttemptTok)
  {
    hide Refusal, FailedRow, Disturbed, RowOf, OrDefault;
    var store := tracker.store;
    ghost var t, input := Table(store.attempts, own), tracker.AttemptInput(m, contextBackend, now);
    ids := own;
    store.OthersWork(p.before, own);
    AdmissionIgnoresRequests(store.tenants, store.requests, store.attempts, input, p.failing);
    var begun := tracker.BeginAttempt(m, contextBackend, now, p.failing);
    if begun.Err? {
      return Refused(Accounting(begun.error)), ids;
    }
    ids := ids + [begun.value.recordId];
    assert Table(store.attempts, ids) == Begun(t, input, p);
    store.OthersWork(p.during, ids);
    if p.answer.Responded? {
      return HandedBack(begun.value), ids;
    }
    InputModel(tracker, m, contextBackend, now);
    var settled := FailAttempt(store, begun.value, m.model, p.settleFails, input);
    outcome := Refused(if settled then Upstream(p.answer.error) else Accounting(StoreFailed));
  }

  lemma InputModel(tracker: RequestTracker, m: AttemptMetadata, contextBackend: string, now: Time)
    ensures
      var input := tracker.AttemptInput(m, contextBackend, now);
      input.model == OrDefault(m.model, input.model) && input.promptTokens == m.promptTokens
  {
  }

  /** The retry loop of a tracked call among the work of other requests: the passes that go on, the last
      one, and the time waited between them. */
  method DoRequest(tracker: RequestTracker, m: AttemptMetadata, contextBackend: string, now: Time,
                   script: Script, retries: Retries)
    returns (outcome: Opening, passes: nat, waited: nat, own: seq<nat>)
    modifies tracker`latestAttemptId, tracker`latestAttemptTok, tracker.store
    ensures tracker.store.requests == old(tracker.store.requests)
    ensures
      var input := tracker.AttemptInput(m, contextBackend, now);
      var t, tenants := Table(old(tracker.store.attempts), []), tracker.store.tenants;
      var k := LastPass(tenants, t, input, script, retries, 0);
      && passes == k + 1
      && waited == WaitTime(retries.backoff, k)
      && EndsWith(Through(tenants, t, input, script, k), tracker.store.attempts, own, tenants, input, script(k), outcome)
    ensures m.stream && own != [] ==> tracker.latestAttemptId == own[|own| - 1] && tracker.latestAttemptTok == m.promptTokens
  {
    hide Admitted, AfterPass, Refusal, PassError;
    var store := tracker.store;
    ghost var t, tenants, input := Table(store.attempts, []), store.tenants, tracker.AttemptInput(m, contextBackend, now);
    ghost var k := LastPass(tenants, t, input, script, retries, 0);
    waited, own := 0, [];
    for attempt := 0 to retries.maxRetries + 1
      invariant attempt <= k && store.requests == old(store.requests)
      invariant Table(store.attempts, own) == Through(tenants, t, input, script, attempt)
      invariant tracker.AttemptInput(m, contextBackend, now) == input && waited == WaitTime(retries.backoff, attempt)
      invariant m.stream && own != [] ==> tracker.latestAttemptId == own[|own| - 1] && tracker.latestAttemptTok == m.promptTokens
    {
      var p := script(attempt);
      ghost var before := Table(store.attempts, own);
      ghost var tried := own;
      outcome, own := TryOnce(tracker, m, contextBackend, now, p, own);
      if outcome.Refused? {
        UpstreamMeansSettled(tenants, before, input, p);
      }
      PassExtends(tenants, before, input, p);
      if outcome.HandedBack? || outcome.error.Accounting? {
        assert !GoesOn(tenants, t, input, script, retries, attempt);
        assert k == attempt;
        return outcome, attempt + 1, waited, own;
      }
      var error := outcome.error.error;
      if attempt == retries.maxRetries || !ShouldRetryRequest(p.contextDone, error) || p.waitCut {
        assert !GoesOn(tenants, t, input, script, retries, attempt);
        assert k == attempt;
        return outcome, attempt + 1, waited, own;
      }
      waited := waited + retries.backoff * (attempt + 1);
      assert GoesOn(tenants, t, input, script, retries, attempt);
      assert k != attempt;
    }
    assert false;
  }

  lemma PassExtends(tenants: set<nat>, t: Table, input: Input, p: Pass)
    ensures
      var own := AfterPass(tenants, t, input, p).own;
      own == t.own || (|own| == |t.own| + 1 && own[..|t.own|] == t.own)
  {
    hide Refusal, Disturbed;
  }

  // ---- A call that is not streamed ----

  datatype Usage = Usage(promptTokens: int, completionTokens: int, totalTokens: int)

  datatype Body = Undecodable(error: CallError) | Decoded(model: string, usage: Usage)

  datatype CallResult = Answered(model: string, usage: Usage) | NotAnswered(error: LoopError)

  /** What the provider reports of its own usage; zeros are filled in from the attempt. */
  function Reported(body: Body): AttemptResult
    requires body.Decoded?
  {
    AttemptResult(body.model, "succeeded", body.usage.promptTokens, body.usage.completionTokens, body.usage.totalTokens)
  }

  /** What the winner is charged: the reported total, or else the reported or reserved prompt and the
      reported completion. */
  function WinnerTotal(promptTokens: nat, usage: Usage): int {
    if usage.totalTokens != 0 then usage.totalTokens
    else (if usage.promptTokens != 0 then usage.promptTokens else promptTokens) + usage.completionTokens
  }

  function WinnerSettlement(input: Input, body: Body): Settlement
    requires body.Decoded?
  {
    SettlementOf(AttemptHandle(0, input.model, input.promptTokens), Reported(body))
  }

  function WinnerRow(input: Input, body: Body): Row
    requires body.Decoded?
  {
    Settled(RowOf(input), WinnerSettlement(input, body))
  }

  /** The table after a whole call: the passes of the loop, then what others do while the answer is read,
      then the settlement of what was handed back, if that works. */
  function AfterCall(tenants: set<nat>, rows: seq<Row>, input: Input, script: Script, k: nat, settling: seq<OtherOp>, body: Body,
                     settleFails: bool): Table
  {
    var t := Through(tenants, Table(rows, []), input, script, k + 1);
    if !HandsBack(tenants, rows, input, script, k) || t.own == [] then t
    else if settleFails then WithOthers(t, settling)
    else SettleLast(WithOthers(t, settling), if body.Decoded? then WinnerSettlement(input, body) else FailedSettlement(input))
  }

  predicate HandsBack(tenants: set<nat>, rows: seq<Row>, input: Input, script: Script, k: nat) {
    Admitted(tenants, Through(tenants, Table(rows, []), input, script, k), input, script(k)) && script(k).answer.Responded?
  }

  predicate Wins(tenants: set<nat>, rows: seq<Row>, input: Input, script: Script, k: nat, body: Body) {
    HandsBack(tenants, rows, input, script, k) && body.Decoded?
  }

  /** What others change during a whole call. */
  function AddedByOthers(tenants: set<nat>, rows: seq<Row>, input: Input, script: Script, k: nat, settling: seq<OtherOp>): int {
    var tokens := TokensOf(input.principal.tenant);
    var t := Through(tenants, Table(rows, []), input, script, k + 1);
    AddedThrough(tenants, Table(rows, []), input, script, k + 1, tokens)
    + if HandsBack(tenants, rows, input, script, k) then DisturbedBy(t.rows, settling, t.own, |settling|, tokens) else 0
  }

  /** Conservation, when settlement works, whatever other requests do meanwhile: the call has begun at
      most maxRetries + 1 attempts, its rows are failed ones and at most one winner, which is the last,
      none is left open, and the tenant's total grows by what the others add, the prompts of the failed
      attempts and the total of the winner. */
  lemma CallConserves(tenants: set<nat>, rows: seq<Row>, input: Input, script: Script, retries: Retries,
                      settling: seq<OtherOp>, body: Body)
    requires AllSettle(script)
    ensures
      var k := LastPass(tenants, Table(rows, []), input, script, retries, 0);
      var t := AfterCall(tenants, rows, input, script, k, settling, body, false);
      var won := Wins(tenants, rows, input, script, k, body);
      var tokens := TokensOf(input.principal.tenant);
      && |t.own| <= retries.maxRetries + 1 && (won ==> t.own != [])
      && OwnRows(t, |rows|, input, if won then WinnerRow(input, body) else FailedRow(input))
      && All(t.rows, tokens) ==
           All(rows, tokens) + AddedByOthers(tenants, rows, input, script, k, settling)
           + (|t.own| - if won then 1 else 0) * input.promptTokens
           + if won then WinnerTotal(input.promptTokens, body.usage) else 0
  {
    hide All, OwnRows, AfterPass, Admitted, OthersAdd, DisturbedBy, Disturbed, GoesOn, Updated;
    var k := LastPass(tenants, Table(rows, []), input, script, retries, 0);
    var before, p := Through(tenants, Table(rows, []), input, script, k), script(k);
    var t := Through(tenants, Table(rows, []), input, script, k + 1);
    FailedPasses(tenants, rows, input, script, retries, k);
    FailedTotal(tenants, rows, input, script, retries, k);
    PassKeepsOwnRows(tenants, before, input, p, |rows|);
    PassTotal(tenants, before, input, p, |rows|);
    PassCounts(tenants, before, input, p);
    if HandsBack(tenants, rows, input, script, k) {
      LastIsSettled(t, |rows|, input, settling, body);
      assert (k + 1) * input.promptTokens == k * input.promptTokens + input.promptTokens;
    } else if Admitted(tenants, before, input, p) {
      assert (k + 1) * input.promptTokens == k * input.promptTokens + input.promptTokens;
    }
  }

  lemma LastIsSettled(t: Table, base: nat, input: Input, settling: seq<OtherOp>, body: Body)
    requires t.own != [] && OwnRows(t, base, input, RowOf(input))
    ensures
      var tokens := TokensOf(input.principal.tenant);
      var u := if body.Decoded? then WinnerSettlement(input, body) else FailedSettlement(input);
      var after := SettleLast(WithOthers(t, settling), u);
      && OwnRows(after, base, input, if body.Decoded? then WinnerRow(input, body) else FailedRow(input))
      && All(after.rows, tokens) == All(t.rows, tokens) + DisturbedBy(t.rows, settling, t.own, |settling|, tokens)
           + if body.Decoded? then WinnerTotal(input.promptTokens, body.usage) - input.promptTokens else 0
  {
    hide All, OwnRows, DisturbedBy, Disturbed, Updated;
    var u := if body.Decoded? then WinnerSettlement(input, body) else FailedSettlement(input);
    OthersKeepOwnRows(t, settling, base, input, RowOf(input));
    DisturbedSum(t.rows, settling, t.own, |settling|, TokensOf(input.principal.tenant));
    SettleKeepsOwnRows(WithOthers(t, settling), base, input, RowOf(input), u);
    SettleLastSum(WithOthers(t, settling), base, input, RowOf(input), u);
  }

  /** A whole call among the work of other requests: the loop, then the settlement of what the winner
      sent back. */
  method DoJSONRequest(tracker: RequestTracker, m: AttemptMetadata, contextBackend: string, now: Time,
                       script: Script, retries: Retries, settling: seq<OtherOp>, body: Body, settleFails: bool)
    returns (r: CallResult)
    modifies tracker`latestAttemptId, tracker`latestAttemptTok, tracker.store
    ensures tracker.store.requests == old(tracker.store.requests)
    ensures
      var input := tracker.AttemptInput(m, contextBackend, now);
      var rows, tenants := old(tracker.store.attempts), tracker.store.tenants;
      var k := LastPass(tenants, Table(rows, []), input, script, retries, 0);
      && tracker.store.attempts == AfterCall(tenants, rows, input, script, k, settling, body, settleFails).rows
      && if !HandsBack(tenants, rows, input, script, k) then
           r == NotAnswered(PassError(tenants, Through(tenants, Table(rows, []), input, script, k), input, script(k)))
         else if settleFails then r == NotAnswered(Accounting(StoreFailed))
         else match body
              case Undecodable(error) => r == NotAnswered(Upstream(error))
              case Decoded(model, usage) => r == Answered(model, usage)
  {
    hide Refusal, FailedRow, PassError, LastPass, SettlementOf, GoesOn, Admitted, AfterPass, Disturbed, Updated, FailedSettlement;
    var store := tracker.store;
    ghost var input := tracker.AttemptInput(m, contextBackend, now);
    ghost var rows, tenants := store.attempts, store.tenants;
    ghost var k := LastPass(tenants, Table(rows, []), input, script, retries, 0);
    var outcome, passes, waited, own := DoRequest(tracker, m, contextBackend, now, script, retries);
    if outcome.Refused? {
      return NotAnswered(outcome.error);
    }
    store.OthersWork(settling, own);
    match body {
      case Undecodable(error) =>
        InputModel(tracker, m, contextBackend, now);
        var settled := FailAttempt(store, outcome.handle, m.model, settleFails, input);
        return NotAnswered(if settled then Upstream(error) else Accounting(StoreFailed));
      case Decoded(model, usage) =>
        SettlementNeedsNoId(outcome.handle, Reported(body));
        var settled := Complete(store, outcome.handle, Reported(body), settleFails);
        return if settled then Answered(model, usage) else NotAnswered(Accounting(StoreFailed));
    }
  }

  lemma SettlementNeedsNoId(h: AttemptHandle, r: AttemptResult)
    ensures SettlementOf(h, r) == SettlementOf(AttemptHandle(0, h.defaultModel, h.promptTokens), r)
  {
  }
}
