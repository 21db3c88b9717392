/** The store's admission methods, each one transaction from begin to commit or rollback
    (internal/store/mysql/governance_store.go). */
module GovernanceStore {
  import opened Wrappers
  import opened Sums
  import opened Ledger
  import opened Admission

  /** The statements of a transaction, any of which can fail. */
  datatype Statement = BeginTx | LockRow | ReadBudget | CountRequests | SumTokens | InsertRow | LastId | CommitTx

  datatype Principal = Principal(tenant: nat, limits: TenantLimits)

  datatype Input = Input(principal: Principal, requestId: string, backend: string, model: string, stream: bool,
                         promptTokens: nat, createdAt: Time)

  /** The row that an admission inserts. */
  function RowOf(input: Input): (row: Row)
    ensures Fresh(row) && row.tenant == input.principal.tenant
  {
    Row(input.principal.tenant, input.requestId, input.backend, input.model, input.stream, "started",
        input.promptTokens, 0, input.promptTokens, input.createdAt)
  }

  /** Why an admission is turned away, if it is: the first thing that goes wrong, in the order of the
      statements. A check whose limit does not bind makes no query. */
  function Refusal(kind: Kind, tenants: set<nat>, requests: seq<Row>, attempts: seq<Row>, input: Input,
                   failing: set<Statement>): Option<Error>
  {
    var limits, row := input.principal.limits, RowOf(input);
    if BeginTx in failing || LockRow in failing || row.tenant !in tenants then Some(StoreFailed)
    else if limits.tokenBudget > 0 && ReadBudget in failing then Some(StoreFailed)
    else if OverBudget(limits, attempts, row) then Some(BudgetExceeded)
    else if kind.RequestAdmission? && limits.rpmLimit > 0 && CountRequests in failing then Some(StoreFailed)
    else if kind.RequestAdmission? && OverRpm(limits, requests, row) then Some(RateLimitExceeded)
    else if kind.RequestAdmission? && limits.tpmLimit > 0 && SumTokens in failing then Some(StoreFailed)
    else if kind.RequestAdmission? && OverTpm(limits, requests, row) then Some(TokenLimitExceeded)
    else if InsertRow in failing || LastId in failing || CommitTx in failing then Some(StoreFailed)
    else None
  }

  /** UPDATE ... WHERE id = ?, which finds one row or none. */
  function Updated(rows: seq<Row>, id: nat, u: Settlement): (r: seq<Row>)
    ensures |r| == |rows|
    ensures forall i :: 0 <= i < |rows| ==> r[i] == if i + 1 == id then Settled(rows[i], u) else rows[i]
  {
    if 1 <= id <= |rows| then rows[id - 1 := Settled(rows[id - 1], u)] else rows
  }

  /** The same rows, whatever they are settled as. */
  predicate SameRows(before: seq<Row>, after: seq<Row>) {
    && |before| == |after|
    && forall i :: 0 <= i < |before| ==>
         after[i].tenant == before[i].tenant && after[i].requestId == before[i].requestId && after[i].backend == before[i].backend
  }

  lemma UpdatedIsSame(rows: seq<Row>, id: nat, u: Settlement)
    ensures SameRows(rows, Updated(rows, id, u)) && SameRows(rows, rows)
  {
  }

  /** What another request can do to the attempt table: begin an attempt, or settle one that it began. */
  datatype OtherOp = Begins(row: Row) | Settles(id: nat, u: Settlement)

  /** The table after the first n of such operations. A row is only settled by the request that began
      it, so an operation on a row with one of the ids in own is not another request's, and is none. */
  function Disturbed(rows: seq<Row>, ops: seq<OtherOp>, own: seq<nat>, n: nat): (r: seq<Row>)
    requires n <= |ops|
    ensures |r| >= |rows|
  {
    if n == 0 then rows
    else
      var front := Disturbed(rows, ops, own, n - 1);
      match ops[n - 1]
      case Begins(row) => front + [row]
      case Settles(id, u) => if id in own then front else Updated(front, id, u)
  }

  /** By how much others change a sum over the table. */
  function DisturbedBy(rows: seq<Row>, ops: seq<OtherOp>, own: seq<nat>, n: nat, weight: Weight): int
    requires n <= |ops|
  {
    if n == 0 then 0
    else
      var front := Disturbed(rows, ops, own, n - 1);
      DisturbedBy(rows, ops, own, n - 1, weight) +
      match ops[n - 1]
      case Begins(row) => weight(row)
      case Settles(id, u) =>
        if id in own || id == 0 || id > |front| then 0 else weight(Settled(front[id - 1], u)) - weight(front[id - 1])
  }

  lemma {:induction false} DisturbedKeepsOwn(rows: seq<Row>, ops: seq<OtherOp>, own: seq<nat>, n: nat, id: nat)
    requires n <= |ops| && id in own && 1 <= id <= |rows|
    ensures Disturbed(rows, ops, own, n)[id - 1] == rows[id - 1]
  {
    if n > 0 {
      DisturbedKeepsOwn(rows, ops, own, n - 1, id);
    }
  }

  lemma UpdatedSum(rows: seq<Row>, id: nat, u: Settlement, weight: Weight)
    ensures All(Updated(rows, id, u), weight) == All(rows, weight) +
            if 1 <= id <= |rows| then weight(Settled(rows[id - 1], u)) - weight(rows[id - 1]) else 0
  {
    if 1 <= id <= |rows| {
      Replaced(rows, id - 1, Settled(rows[id - 1], u), weight);
    }
  }

  lemma {:induction false} DisturbedSum(rows: seq<Row>, ops: seq<OtherOp>, own: seq<nat>, n: nat, weight: Weight)
    requires n <= |ops|
    ensures All(Disturbed(rows, ops, own, n), weight) == All(rows, weight) + DisturbedBy(rows, ops, own, n, weight)
  {
    hide All;
    if n > 0 {
      DisturbedSum(rows, ops, own, n - 1, weight);
      var front := Disturbed(rows, ops, own, n - 1);
      match ops[n - 1]
      case Begins(row) => Appended(front, row, weight);
      case Settles(id, u) => UpdatedSum(front, id, u, weight);
    }
  }

  /** One database transaction: the inserts it holds back, and how often it was rolled back. */
  class Transaction {
    var committed: bool
    var rollbacks: nat

    constructor ()
      ensures !committed && rollbacks == 0
    {
      committed, rollbacks := false, 0;
    }

    method Finish(success: bool)
      modifies this
      ensures committed == (old(committed) || success)
      ensures rollbacks == old(rollbacks) + if committed then 0 else 1
    {
      committed := committed || success;
      if !committed {
        rollbacks := rollbacks + 1;
      }
    }
  }

  class Store {
    const tenants: set<nat>
    var requests: seq<Row>
    var attempts: seq<Row>

    constructor (tenants: set<nat>)
      ensures this.tenants == tenants && requests == [] && attempts == []
    {
      this.tenants := tenants;
      requests, attempts := [], [];
    }

    method EnforceBudget(limits: TenantLimits, row: Row, failing: set<Statement>) returns (r: Option<Error>)
      ensures r == if limits.tokenBudget > 0 && ReadBudget in failing then Some(StoreFailed)
                   else if OverBudget(limits, attempts, row) then Some(BudgetExceeded) else None
    {
      if limits.tokenBudget <= 0 {
        return None;
      }
      if ReadBudget in failing {
        return Some(StoreFailed);
      }
      var totalTokensUsed := All(attempts, TokensOf(row.tenant));
      if totalTokensUsed + row.promptTokens > limits.tokenBudget {
        return Some(BudgetExceeded);
      }
      return None;
    }

    method EnforceRateLimit(limits: TenantLimits, row: Row, failing: set<Statement>) returns (r: Option<Error>)
      ensures r == if limits.rpmLimit > 0 && CountRequests in failing then Some(StoreFailed)
                   else if OverRpm(limits, requests, row) then Some(RateLimitExceeded)
                   else if limits.tpmLimit > 0 && SumTokens in failing then Some(StoreFailed)
                   else if OverTpm(limits, requests, row) then Some(TokenLimitExceeded) else None
    {
      var windowStart := row.createdAt - MINUTE;
      if limits.rpmLimit > 0 {
        if CountRequests in failing {
          return Some(StoreFailed);
        }
        var count := All(requests, RequestsSince(row.tenant, windowStart));
        if count >= limits.rpmLimit {
          return Some(RateLimitExceeded);
        }
      }
      if limits.tpmLimit <= 0 {
        return None;
      }
      if SumTokens in failing {
        return Some(StoreFailed);
      }
      var tokensUsedThisMinute := All(requests, TokensSince(row.tenant, windowStart));
      if tokensUsedThisMinute + row.promptTokens > limits.tpmLimit {
        return Some(TokenLimitExceeded);
      }
      return None;
    }

    method Admit(kind: Kind, row: Row, limits: TenantLimits, failing: set<Statement>) returns (r: Option<Error>)
      ensures r == if LockRow in failing || row.tenant !in tenants then Some(StoreFailed)
                   else if limits.tokenBudget > 0 && ReadBudget in failing then Some(StoreFailed)
                   else if OverBudget(limits, attempts, row) then Some(BudgetExceeded)
                   else if kind.RequestAdmission? && limits.rpmLimit > 0 && CountRequests in failing then Some(StoreFailed)
                   else if kind.RequestAdmission? && OverRpm(limits, requests, row) then Some(RateLimitExceeded)
                   else if kind.RequestAdmission? && limits.tpmLimit > 0 && SumTokens in failing then Some(StoreFailed)
                   else if kind.RequestAdmission? && OverTpm(limits, requests, row) then Some(TokenLimitExceeded)
                   else None
    {
      hide OverBudget, OverRpm, OverTpm;
      if LockRow in failing || row.tenant !in tenants {
        return Some(StoreFailed);
      }
      r := EnforceBudget(limits, row, failing);
      if r.None? && kind.RequestAdmission? {
        r := EnforceRateLimit(limits, row, failing);
      }
    }

    /** The insert outside a transaction. */
    method InsertUsageRecord(row: Row, failing: set<Statement>) returns (r: Result<nat, Error>)
      modifies this
      ensures attempts == old(attempts)
      ensures if InsertRow in failing || LastId in failing
              then r == Err(StoreFailed) && requests == (if InsertRow in failing then old(requests) else old(requests) + [row])
              else r == Ok(|requests|) && requests == old(requests) + [row]
    {
      if InsertRow in failing {
        return Err(StoreFailed);
      }
      requests := requests + [row];
      if LastId in failing {
        return Err(StoreFailed);
      }
      return Ok(|requests|);
    }

    /** What other requests do to the attempt table meanwhile, when the rows with the ids in own are
        not theirs. */
    method OthersWork(ops: seq<OtherOp>, own: seq<nat>)
      modifies this
      ensures requests == old(requests) && attempts == Disturbed(old(attempts), ops, own, |ops|)
    {
      for i := 0 to |ops|
        invariant requests == old(requests) && attempts == Disturbed(old(attempts), ops, own, i)
      {
        match ops[i] {
          case Begins(row) =>
            attempts := attempts + [row];
          case Settles(id, u) =>
            if id !in own {
              var _ := UpdateAttemptUsageRecord(id, u, false);
            }
        }
      }
    }

    /** Admits a request, or leaves both tables as they were. The transaction is rolled back exactly
        when it was begun and not committed. */
    method BeginRequestAtomic(input: Input, failing: set<Statement>) returns (r: Result<nat, Error>, tx: Transaction)
      modifies this
      ensures fresh(tx) && tx.committed == r.Ok?
      ensures tx.rollbacks == if r.Ok? || BeginTx in failing then 0 else 1
      ensures attempts == old(attempts)
      ensures
        match Refusal(RequestAdmission, tenants, old(requests), attempts, input, failing)
        case Some(error) => r == Err(error) && requests == old(requests)
        case None => r == Ok(|requests|) && requests == old(requests) + [RowOf(input)]
    {
      hide OverBudget, OverRpm, OverTpm;
      tx := new Transaction();
      if BeginTx in failing {
        return Err(StoreFailed), tx;
      }
      var refusal := Admit(RequestAdmission, RowOf(input), input.principal.limits, failing);
      if refusal.Some? {
        tx.Finish(false);
        return Err(refusal.value), tx;
      }
      if InsertRow in failing || LastId in failing || CommitTx in failing {
        tx.Finish(false);
        return Err(StoreFailed), tx;
      }
      requests := requests + [RowOf(input)];
      tx.Finish(true);
      tx.Finish(false);
      return Ok(|requests|), tx;
    }

    /** Admits an attempt against the budget alone, or leaves both tables as they were. */
    method BeginAttemptAtomic(input: Input, failing: set<Statement>) returns (r: Result<nat, Error>, tx: Transaction)
      modifies this
      ensures fresh(tx) && tx.committed == r.Ok?
      ensures tx.rollbacks == if r.Ok? || BeginTx in failing then 0 else 1
      ensures requests == old(requests)
      ensures
        match Refusal(AttemptAdmission, tenants, requests, old(attempts), input, failing)
        case Some(error) => r == Err(error) && attempts == old(attempts)
        case None => r == Ok(|attempts|) && attempts == old(attempts) + [RowOf(input)]
    {
      hide OverBudget, OverRpm, OverTpm;
      tx := new Transaction();
      if BeginTx in failing {
        return Err(StoreFailed), tx;
      }
      var refusal := Admit(AttemptAdmission, RowOf(input), input.principal.limits, failing);
      if refusal.Some? {
        tx.Finish(false);
        return Err(refusal.value), tx;
      }
      if InsertRow in failing || LastId in failing || CommitTx in failing {
        tx.Finish(false);
        return Err(StoreFailed), tx;
      }
      attempts := attempts + [RowOf(input)];
      tx.Finish(true);
      tx.Finish(false);
      return Ok(|attempts|), tx;
    }

    /** An UPDATE by id, which can fail; one that finds no row is not an error. */
    method UpdateUsageRecord(id: nat, u: Settlement, fails: bool) returns (ok: bool)
      modifies this
      ensures ok == !fails && attempts == old(attempts)
      ensures requests == if ok then Updated(old(requests), id, u) else old(requests)
    {
      if fails {
        return false;
      }
      ok := true;
      if 1 <= id <= |requests| {
        requests := requests[id - 1 := Settled(requests[id - 1], u)];
      }
    }

    method UpdateAttemptUsageRecord(id: nat, u: Settlement, fails: bool) returns (ok: bool)
      modifies this
      ensures ok == !fails && requests == old(requests)
      ensures attempts == if ok then Updated(old(attempts), id, u) else old(attempts)
    {
      if fails {
        return false;
      }
      ok := true;
      if 1 <= id <= |attempts| {
        attempts := attempts[id - 1 := Settled(attempts[id - 1], u)];
      }
    }
  }

  // ---- The methods are runs ----

  function TxSteps(kind: Kind, id: nat, row: Row): seq<Step> {
    match kind
    case RequestAdmission => [Begin(id, kind, row), Lock(id), CheckBudget(id), CheckRpm(id), CheckTpm(id), Commit(id)]
    case AttemptAdmission => [Begin(id, kind, row), Lock(id), CheckBudget(id), Commit(id)]
  }

  lemma RunOne(plan: Plan, w: World, steps: seq<Step>, n: nat)
    requires n < |steps|
    ensures Run(plan, w, steps, n + 1) == Apply(plan, Run(plan, w, steps, n), steps[n])
  {
    hide Apply;
  }

  /** Both reach the budget check with the tables as they were. */
  lemma UpToBudget(plan: Plan, w: World, kind: Kind, id: nat, row: Row)
    requires id !in w.txs && Fresh(row) && row.tenant in plan && row.tenant !in w.holder
    ensures
      var w' := Run(plan, w, TxSteps(kind, id, row), 2);
      && w'.requests == w.requests && w'.attempts == w.attempts
      && w'.txs == w.txs[id := Tx(kind, row, Locked, 0)]
  {
    hide OverBudget, OverRpm, OverTpm, BudgetChecked, RpmChecked, TpmChecked, Inserted;
    var steps := TxSteps(kind, id, row);
    RunOne(plan, w, steps, 0);
    RunOne(plan, w, steps, 1);
  }

  lemma EndedStays(plan: Plan, w: World, id: nat, error: Error, step: Step)
    requires In(w, id, RolledBack(error)) && (step == CheckRpm(id) || step == CheckTpm(id) || step == Commit(id))
    ensures Apply(plan, w, step) == w
  {
  }

  lemma ChecksOf(plan: Plan, w: World, id: nat)
    requires id in w.txs && w.txs[id].row.tenant in plan
    ensures
      var tx, limits := w.txs[id], plan[w.txs[id].row.tenant];
      && (tx.phase.Locked? ==>
            var w' := BudgetChecked(plan, w, id);
            && w'.requests == w.requests && w'.attempts == w.attempts && id in w'.txs && w'.txs[id].row == tx.row
            && w'.txs[id].kind == tx.kind
            && w'.txs[id].phase == if OverBudget(limits, w.attempts, tx.row) then RolledBack(BudgetExceeded)
                                   else if tx.kind.AttemptAdmission? then Ready else BudgetPassed)
      && (tx.phase.BudgetPassed? ==>
            var w' := RpmChecked(plan, w, id);
            && w'.requests == w.requests && w'.attempts == w.attempts && id in w'.txs && w'.txs[id].row == tx.row
            && w'.txs[id].kind == tx.kind
            && w'.txs[id].phase == if OverRpm(limits, w.requests, tx.row) then RolledBack(RateLimitExceeded) else RpmPassed)
      && (tx.phase.RpmPassed? ==>
            var w' := TpmChecked(plan, w, id);
            && w'.requests == w.requests && w'.attempts == w.attempts && id in w'.txs && w'.txs[id].row == tx.row
            && w'.txs[id].kind == tx.kind
            && w'.txs[id].phase == if OverTpm(limits, w.requests, tx.row) then RolledBack(TokenLimitExceeded) else Ready)
  {
    hide OverBudget, OverRpm, OverTpm, End;
    EndMoves(w, id, RolledBack(BudgetExceeded));
    EndMoves(w, id, RolledBack(RateLimitExceeded));
    EndMoves(w, id, RolledBack(TokenLimitExceeded));
  }

  lemma CommitOf(w: World, id: nat)
    requires In(w, id, Ready)
    ensures
      var w', tx := Inserted(w, id), w.txs[id];
      && In(w', id, Committed)
      && w'.requests == (if tx.kind.RequestAdmission? then w.requests + [tx.row] else w.requests)
      && w'.attempts == (if tx.kind.AttemptAdmission? then w.attempts + [tx.row] else w.attempts)
  {
    hide End;
    EndMoves(w, id, Committed);
  }

  /** A transaction that nothing interleaves with and whose statements succeed does in small steps what
      the store's method does at once: the same verdict, the same tables. */
  lemma AttemptIsARun(plan: Plan, w: World, id: nat, input: Input)
    requires id !in w.txs && input.principal.tenant in plan && input.principal.tenant !in w.holder
    requires plan[input.principal.tenant] == input.principal.limits
    ensures
      var after := Run(plan, w, TxSteps(AttemptAdmission, id, RowOf(input)), 4);
      && after.requests == w.requests && id in after.txs
      && match Refusal(AttemptAdmission, plan.Keys, w.requests, w.attempts, input, {})
         case Some(error) => after.txs[id].phase == RolledBack(error) && after.attempts == w.attempts
         case None => after.txs[id].phase == Committed && after.attempts == w.attempts + [RowOf(input)]
  {
    hide OverBudget, OverRpm, OverTpm, Inserted, BudgetChecked, RpmChecked, TpmChecked, LockTaken, Opened;
    var row := RowOf(input);
    var steps := TxSteps(AttemptAdmission, id, row);
    UpToBudget(plan, w, AttemptAdmission, id, row);
    RunOne(plan, w, steps, 2);
    RunOne(plan, w, steps, 3);
    ChecksOf(plan, Run(plan, w, steps, 2), id);
    var checked := Run(plan, w, steps, 3);
    if In(checked, id, Ready) {
      CommitOf(checked, id);
    } else {
      EndedStays(plan, checked, id, BudgetExceeded, Commit(id));
    }
  }

  /** The same for a request, whose checks are the budget, then the request rate, then the token rate. */
  lemma RequestIsARun(plan: Plan, w: World, id: nat, input: Input)
    requires id !in w.txs && input.principal.tenant in plan && input.principal.tenant !in w.holder
    requires plan[input.principal.tenant] == input.principal.limits
    ensures
      var after := Run(plan, w, TxSteps(RequestAdmission, id, RowOf(input)), 6);
      && after.attempts == w.attempts && id in after.txs
      && match Refusal(RequestAdmission, plan.Keys, w.requests, w.attempts, input, {})
         case Some(error) => after.txs[id].phase == RolledBack(error) && after.requests == w.requests
         case None => after.txs[id].phase == Committed && after.requests == w.requests + [RowOf(input)]
  {
    hide OverBudget, OverRpm, OverTpm, Inserted, BudgetChecked, RpmChecked, TpmChecked, LockTaken, Opened;
    var row := RowOf(input);
    var steps := TxSteps(RequestAdmission, id, row);
    UpToBudget(plan, w, RequestAdmission, id, row);
    RunOne(plan, w, steps, 2);
    RunOne(plan, w, steps, 3);
    RunOne(plan, w, steps, 4);
    RunOne(plan, w, steps, 5);
    ChecksOf(plan, Run(plan, w, steps, 2), id);
    var budgeted := Run(plan, w, steps, 3);
    if In(budgeted, id, BudgetPassed) {
      ChecksOf(plan, budgeted, id);
      var counted := Run(plan, w, steps, 4);
      if In(counted, id, RpmPassed) {
        ChecksOf(plan, counted, id);
        var summed := Run(plan, w, steps, 5);
        if In(summed, id, Ready) {
          CommitOf(summed, id);
        } else {
          EndedStays(plan, summed, id, TokenLimitExceeded, Commit(id));
        }
      } else {
        EndedStays(plan, counted, id, RateLimitExceeded, CheckTpm(id));
        EndedStays(plan, counted, id, RateLimitExceeded, Commit(id));
      }
    } else {
      EndedStays(plan, budgeted, id, BudgetExceeded, CheckRpm(id));
      EndedStays(plan, budgeted, id, BudgetExceeded, CheckTpm(id));
      EndedStays(plan, budgeted, id, BudgetExceeded, Commit(id));
    }
  }
}
