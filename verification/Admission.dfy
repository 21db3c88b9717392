/** Admission transactions as small steps that interleave freely with each other and with settlement
    (internal/store/mysql/governance_store.go).
    A run is any sequence of steps; a step that is not possible where it stands changes nothing. */
module Admission {
  import opened Sums
  import opened Ledger

  datatype Error = RateLimitExceeded | TokenLimitExceeded | BudgetExceeded | StoreFailed

  datatype Kind = RequestAdmission | AttemptAdmission

  /** Where a transaction stands. From Locked to Ready it holds the lock on its tenant's row. */
  datatype Phase = Begun | Locked | BudgetPassed | RpmPassed | Ready | Committed | RolledBack(error: Error)

  /** A transaction that wants to insert row. growthAtRead is the tenant's settlement growth at the
      time of its budget check. */
  datatype Tx = Tx(kind: Kind, row: Row, phase: Phase, growthAtRead: int)

  /** The tables, the open and closed transactions, and who holds each tenant's lock. Two entries are
      bookkeeping: growth is by how much settlement has raised a tenant's attempt total since the start,
      and lastRead is that growth at the budget read of the tenant's last committed admission. */
  datatype World = World(
    requests: seq<Row>, attempts: seq<Row>, txs: map<nat, Tx>, holder: map<nat, nat>,
    growth: map<nat, int>, lastRead: map<nat, int>)

  type Plan = map<nat, TenantLimits>

  datatype Step =
    | Begin(tx: nat, kind: Kind, row: Row)
    | Lock(tx: nat) | CheckBudget(tx: nat) | CheckRpm(tx: nat) | CheckTpm(tx: nat) | Commit(tx: nat)
    | Rollback(tx: nat)
    | SettleRequest(at: nat, settlement: Settlement)
    | SettleAttempt(at: nat, settlement: Settlement)
    | InsertRequest(row: Row)

  predicate Holding(phase: Phase) {
    phase.Locked? || phase.BudgetPassed? || phase.RpmPassed? || phase.Ready?
  }

  function GrowthOf(w: World, tenant: nat): int {
    if tenant in w.growth then w.growth[tenant] else 0
  }

  /** The row an admission inserts: its prompt is charged at once. */
  predicate Fresh(row: Row) {
    row.totalTokens == row.promptTokens >= 0 && row.completionTokens == 0
  }

  // ---- The checks ----

  predicate OverBudget(limits: TenantLimits, attempts: seq<Row>, row: Row) {
    limits.tokenBudget > 0 && All(attempts, TokensOf(row.tenant)) + row.promptTokens > limits.tokenBudget
  }

  predicate OverRpm(limits: TenantLimits, requests: seq<Row>, row: Row) {
    limits.rpmLimit > 0 && All(requests, RequestsSince(row.tenant, row.createdAt - MINUTE)) >= limits.rpmLimit
  }

  predicate OverTpm(limits: TenantLimits, requests: seq<Row>, row: Row) {
    limits.tpmLimit > 0
    && All(requests, TokensSince(row.tenant, row.createdAt - MINUTE)) + row.promptTokens > limits.tpmLimit
  }

  // ---- Steps ----

  function Move(w: World, id: nat, phase: Phase): World
    requires id in w.txs
  {
    w.(txs := w.txs[id := w.txs[id].(phase := phase)])
  }

  /** A transaction ends: its lock, if it holds it, is released. */
  function End(w: World, id: nat, phase: Phase): World
    requires id in w.txs
  {
    var tenant := w.txs[id].row.tenant;
    Move(w, id, phase).(holder := if tenant in w.holder && w.holder[tenant] == id then w.holder - {tenant} else w.holder)
  }

  predicate In(w: World, id: nat, phase: Phase) {
    id in w.txs && w.txs[id].phase == phase
  }

  function Opened(w: World, id: nat, kind: Kind, row: Row): World {
    if id in w.txs || !Fresh(row) then w else w.(txs := w.txs[id := Tx(kind, row, Begun, 0)])
  }

  /** SELECT ... FOR UPDATE on the tenant's row: it waits while another transaction holds it. */
  function LockTaken(plan: Plan, w: World, id: nat): World {
    if !In(w, id, Begun) then w
    else
      var tenant := w.txs[id].row.tenant;
      if tenant !in plan then End(w, id, RolledBack(StoreFailed))
      else if tenant in w.holder then w
      else Move(w, id, Locked).(holder := w.holder[tenant := id])
  }

  function BudgetChecked(plan: Plan, w: World, id: nat): World {
    if !In(w, id, Locked) then w
    else
      var tx := w.txs[id];
      if tx.row.tenant !in plan then End(w, id, RolledBack(StoreFailed))
      else if OverBudget(plan[tx.row.tenant], w.attempts, tx.row) then End(w, id, RolledBack(BudgetExceeded))
      else
        w.(txs := w.txs[id := tx.(phase := if tx.kind.AttemptAdmission? then Ready else BudgetPassed,
                                  growthAtRead := GrowthOf(w, tx.row.tenant))])
  }

  function RpmChecked(plan: Plan, w: World, id: nat): World {
    if !In(w, id, BudgetPassed) || w.txs[id].row.tenant !in plan then w
    else if OverRpm(plan[w.txs[id].row.tenant], w.requests, w.txs[id].row) then End(w, id, RolledBack(RateLimitExceeded))
    else Move(w, id, RpmPassed)
  }

  function TpmChecked(plan: Plan, w: World, id: nat): World {
    if !In(w, id, RpmPassed) || w.txs[id].row.tenant !in plan then w
    else if OverTpm(plan[w.txs[id].row.tenant], w.requests, w.txs[id].row) then End(w, id, RolledBack(TokenLimitExceeded))
    else Move(w, id, Ready)
  }

  function Inserted(w: World, id: nat): World {
    if !In(w, id, Ready) then w
    else
      var tx := w.txs[id];
      var read := w.lastRead[tx.row.tenant := tx.growthAtRead];
      match tx.kind
      case RequestAdmission => End(w, id, Committed).(requests := w.requests + [tx.row], lastRead := read)
      case AttemptAdmission => End(w, id, Committed).(attempts := w.attempts + [tx.row], lastRead := read)
  }

  /** A failing statement or commit, at any point of an open transaction. */
  function Aborted(w: World, id: nat): World {
    if id in w.txs && (w.txs[id].phase.Begun? || Holding(w.txs[id].phase)) then End(w, id, RolledBack(StoreFailed)) else w
  }

  function RequestSettled(w: World, at: nat, u: Settlement): World {
    if at < |w.requests| then w.(requests := w.requests[at := Settled(w.requests[at], u)]) else w
  }

  function AttemptSettled(w: World, at: nat, u: Settlement): World {
    if at < |w.attempts| then
      var row := w.attempts[at];
      w.(attempts := w.attempts[at := Settled(row, u)],
         growth := w.growth[row.tenant := GrowthOf(w, row.tenant) + u.totalTokens - row.totalTokens])
    else w
  }

  function Apply(plan: Plan, w: World, step: Step): World {
    match step
    case Begin(id, kind, row) => Opened(w, id, kind, row)
    case Lock(id) => LockTaken(plan, w, id)
    case CheckBudget(id) => BudgetChecked(plan, w, id)
    case CheckRpm(id) => RpmChecked(plan, w, id)
    case CheckTpm(id) => TpmChecked(plan, w, id)
    case Commit(id) => Inserted(w, id)
    case Rollback(id) => Aborted(w, id)
    case SettleRequest(at, u) => RequestSettled(w, at, u)
    case SettleAttempt(at, u) => AttemptSettled(w, at, u)
    case InsertRequest(row) => w.(requests := w.requests + [row])
  }

  /** The world after the first n steps of a run. */
  function Run(plan: Plan, w: World, steps: seq<Step>, n: nat): World
    requires n <= |steps|
  {
    if n == 0 then w else Apply(plan, Run(plan, w, steps, n - 1), steps[n - 1])
  }

  /** Tables as a run may find them: no transaction is open. */
  predicate Quiet(w: World) {
    w.txs == map[] && w.holder == map[] && w.growth == map[] && w.lastRead == map[]
  }

  // ---- Locks ----

  /** A lock has one holder, and whoever is between its checks holds its tenant's lock. */
  ghost predicate Exclusive(w: World) {
    && (forall t :: t in w.holder ==>
          w.holder[t] in w.txs && w.txs[w.holder[t]].row.tenant == t && Holding(w.txs[w.holder[t]].phase))
    && (forall id :: id in w.txs && Holding(w.txs[id].phase) ==>
          w.txs[id].row.tenant in w.holder && w.holder[w.txs[id].row.tenant] == id)
    && (forall id :: id in w.txs ==> Fresh(w.txs[id].row))
  }

  lemma EndKeepsExclusive(w: World, id: nat, phase: Phase)
    requires Exclusive(w) && id in w.txs && !Holding(phase)
    ensures Exclusive(End(w, id, phase))
  {
  }

  lemma MoveKeepsExclusive(w: World, id: nat, phase: Phase, growthAtRead: int)
    requires Exclusive(w) && id in w.txs && Holding(w.txs[id].phase) && Holding(phase)
    ensures Exclusive(w.(txs := w.txs[id := w.txs[id].(phase := phase, growthAtRead := growthAtRead)]))
  {
    var w' := w.(txs := w.txs[id := w.txs[id].(phase := phase, growthAtRead := growthAtRead)]);
    assert forall i :: i in w'.txs <==> i in w.txs;
    assert forall i :: i in w.txs ==> w'.txs[i].row == w.txs[i].row;
  }

  lemma OpenKeepsExclusive(w: World, id: nat, kind: Kind, row: Row)
    requires Exclusive(w)
    ensures Exclusive(Opened(w, id, kind, row))
  {
  }

  lemma LockKeepsExclusive(plan: Plan, w: World, id: nat)
    requires Exclusive(w)
    ensures Exclusive(LockTaken(plan, w, id))
  {
    hide End;
    if In(w, id, Begun) {
      EndKeepsExclusive(w, id, RolledBack(StoreFailed));
    }
  }

  lemma BudgetKeepsExclusive(plan: Plan, w: World, id: nat)
    requires Exclusive(w)
    ensures Exclusive(BudgetChecked(plan, w, id))
  {
    hide Exclusive, OverBudget, End;
    if In(w, id, Locked) {
      EndKeepsExclusive(w, id, RolledBack(StoreFailed));
      EndKeepsExclusive(w, id, RolledBack(BudgetExceeded));
      MoveKeepsExclusive(w, id, if w.txs[id].kind.AttemptAdmission? then Ready else BudgetPassed,
                         GrowthOf(w, w.txs[id].row.tenant));
    }
  }

  lemma RatesKeepExclusive(plan: Plan, w: World, id: nat)
    requires Exclusive(w)
    ensures Exclusive(RpmChecked(plan, w, id)) && Exclusive(TpmChecked(plan, w, id))
  {
    hide Exclusive, OverRpm, OverTpm, End;
    if id in w.txs && Holding(w.txs[id].phase) {
      EndKeepsExclusive(w, id, RolledBack(RateLimitExceeded));
      EndKeepsExclusive(w, id, RolledBack(TokenLimitExceeded));
      MoveKeepsExclusive(w, id, RpmPassed, w.txs[id].growthAtRead);
      MoveKeepsExclusive(w, id, Ready, w.txs[id].growthAtRead);
    }
  }

  lemma TablesKeepExclusive(w: World, w': World)
    requires Exclusive(w) && w'.txs == w.txs && w'.holder == w.holder
    ensures Exclusive(w')
  {
  }

  lemma CommitKeepsExclusive(w: World, id: nat)
    requires Exclusive(w)
    ensures Exclusive(Inserted(w, id)) && Exclusive(Aborted(w, id))
  {
    hide Exclusive, End;
    if id in w.txs {
      EndKeepsExclusive(w, id, Committed);
      EndKeepsExclusive(w, id, RolledBack(StoreFailed));
      TablesKeepExclusive(End(w, id, Committed), if In(w, id, Ready) then Inserted(w, id) else End(w, id, Committed));
    }
  }

  lemma StepKeepsExclusive(plan: Plan, w: World, step: Step)
    requires Exclusive(w)
    ensures Exclusive(Apply(plan, w, step))
  {
    hide Exclusive, Opened, LockTaken, BudgetChecked, RpmChecked, TpmChecked, Inserted, Aborted;
    match step
    case Begin(id, kind, row) => OpenKeepsExclusive(w, id, kind, row);
    case Lock(id) => LockKeepsExclusive(plan, w, id);
    case CheckBudget(id) => BudgetKeepsExclusive(plan, w, id);
    case CheckRpm(id) => RatesKeepExclusive(plan, w, id);
    case CheckTpm(id) => RatesKeepExclusive(plan, w, id);
    case Commit(id) => CommitKeepsExclusive(w, id);
    case Rollback(id) => CommitKeepsExclusive(w, id);
    case _ => TablesKeepExclusive(w, Apply(plan, w, step));
  }

  // ---- What one step can change ----

  predicate Passed(phase: Phase) {
    phase.BudgetPassed? || phase.RpmPassed? || phase.Ready?
  }

  predicate RatePassed(tx: Tx) {
    tx.kind.RequestAdmission? && (tx.phase.RpmPassed? || tx.phase.Ready?)
  }

  predicate TokensPassed(tx: Tx) {
    tx.kind.RequestAdmission? && tx.phase.Ready?
  }

  /** The transaction that the step commits, if it commits one. */
  predicate Commits(w: World, step: Step, id: nat) {
    step == Commit(id) && In(w, id, Ready)
  }

  /** No other transaction moves, and this one only to a closing phase. */
  lemma EndMoves(w: World, id: nat, phase: Phase)
    requires id in w.txs
    ensures End(w, id, phase).txs == w.txs[id := w.txs[id].(phase := phase)]
    ensures End(w, id, phase).requests == w.requests && End(w, id, phase).attempts == w.attempts
    ensures End(w, id, phase).growth == w.growth && End(w, id, phase).lastRead == w.lastRead
  {
  }

  /** Opening, locking, committing and aborting take no transaction past a check. */
  predicate PassesNobody(w: World, w': World) {
    forall id :: id in w'.txs && Passed(w'.txs[id].phase) ==> id in w.txs && w'.txs[id] == w.txs[id]
  }

  lemma OpeningPassesNobody(w: World, id: nat, kind: Kind, row: Row)
    ensures PassesNobody(w, Opened(w, id, kind, row))
  {
  }

  lemma LockingPassesNobody(plan: Plan, w: World, id: nat)
    ensures PassesNobody(w, LockTaken(plan, w, id))
  {
    hide End;
    if id in w.txs {
      EndMoves(w, id, RolledBack(StoreFailed));
    }
  }

  lemma EndingPassesNobody(w: World, id: nat)
    ensures PassesNobody(w, Inserted(w, id)) && PassesNobody(w, Aborted(w, id))
    ensures In(w, id, Ready) ==> !Passed(Inserted(w, id).txs[id].phase)
  {
    hide End;
    if id in w.txs {
      EndMoves(w, id, Committed);
      EndMoves(w, id, RolledBack(StoreFailed));
    }
  }

  /** The checks move only the transaction that makes them, and past only what it has checked. */
  lemma BudgetCheckPasses(plan: Plan, w: World, id: nat, i: nat)
    ensures
      var w' := BudgetChecked(plan, w, id);
      i in w'.txs && Passed(w'.txs[i].phase) ==>
        && i in w.txs && w'.txs[i].row == w.txs[i].row && w'.txs[i].kind == w.txs[i].kind
        && (w'.txs[i] == w.txs[i]
            || (&& i == id && In(w, id, Locked) && w.txs[id].row.tenant in plan
                && !OverBudget(plan[w.txs[id].row.tenant], w.attempts, w.txs[id].row)
                && (w'.txs[id].phase.Ready? ==> w'.txs[id].kind.AttemptAdmission?) && !w'.txs[id].phase.RpmPassed?
                && w'.txs[id].growthAtRead == GrowthOf(w, w.txs[id].row.tenant)))
  {
    hide OverBudget, End;
    if In(w, id, Locked) {
      EndMoves(w, id, RolledBack(StoreFailed));
      EndMoves(w, id, RolledBack(BudgetExceeded));
    }
  }

  lemma RpmCheckPasses(plan: Plan, w: World, id: nat, i: nat)
    ensures
      var w' := RpmChecked(plan, w, id);
      i in w'.txs && Passed(w'.txs[i].phase) ==>
        && i in w.txs && w'.txs[i] == w.txs[i].(phase := w'.txs[i].phase)
        && (w'.txs[i] == w.txs[i]
            || (&& i == id && In(w, id, BudgetPassed) && w.txs[id].row.tenant in plan && w'.txs[id].phase.RpmPassed?
                && !OverRpm(plan[w.txs[id].row.tenant], w.requests, w.txs[id].row)))
  {
    hide OverRpm, End;
    if In(w, id, BudgetPassed) {
      EndMoves(w, id, RolledBack(RateLimitExceeded));
    }
  }

  lemma TpmCheckPasses(plan: Plan, w: World, id: nat, i: nat)
    ensures
      var w' := TpmChecked(plan, w, id);
      i in w'.txs && Passed(w'.txs[i].phase) ==>
        && i in w.txs && w'.txs[i] == w.txs[i].(phase := w'.txs[i].phase)
        && (w'.txs[i] == w.txs[i]
            || (&& i == id && In(w, id, RpmPassed) && w.txs[id].row.tenant in plan
                && !OverTpm(plan[w.txs[id].row.tenant], w.requests, w.txs[id].row)))
  {
    hide OverTpm, End;
    if In(w, id, RpmPassed) {
      EndMoves(w, id, RolledBack(TokenLimitExceeded));
    }
  }

  /** A transaction past its budget check was so before, or is just through it. */
  predicate BudgetJustPassed(plan: Plan, w: World, tx: Tx, id: nat) {
    && In(w, id, Locked) && tx.row.tenant in plan
    && !OverBudget(plan[tx.row.tenant], w.attempts, tx.row)
    && tx.growthAtRead == GrowthOf(w, tx.row.tenant)
  }

  lemma PassedByCheck(plan: Plan, w: World, step: Step, id: nat)
    ensures
      var w' := Apply(plan, w, step);
      id in w'.txs && Passed(w'.txs[id].phase) ==>
        && id in w.txs && w'.txs[id].row == w.txs[id].row && !Commits(w, step, id)
        && ((Passed(w.txs[id].phase) && w'.txs[id].growthAtRead == w.txs[id].growthAtRead)
            || (step == CheckBudget(id) && BudgetJustPassed(plan, w, w'.txs[id], id)))
  {
    hide OverBudget, Opened, LockTaken, BudgetChecked, RpmChecked, TpmChecked, Inserted, Aborted, GrowthOf;
    match step
    case Begin(i, kind, row) => OpeningPassesNobody(w, i, kind, row);
    case Lock(i) => LockingPassesNobody(plan, w, i);
    case CheckBudget(i) => BudgetCheckPasses(plan, w, i, id);
    case CheckRpm(i) => RpmCheckPasses(plan, w, i, id);
    case CheckTpm(i) => TpmCheckPasses(plan, w, i, id);
    case Commit(i) => EndingPassesNobody(w, i);
    case Rollback(i) => EndingPassesNobody(w, i);
    case _ =>
  }
}
