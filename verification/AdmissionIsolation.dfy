/** Tenants do not affect each other: what a run means for one tenant is what that tenant's own steps
    mean in a database that holds nobody else (internal/store/mysql/governance_store.go). */
module AdmissionIsolation {
  import opened Sums
  import opened Ledger
  import opened Admission

  function Only<V>(m: map<nat, V>, tenant: nat): map<nat, V> {
    if tenant in m then map[tenant := m[tenant]] else map[]
  }

  function TxsOf(txs: map<nat, Tx>, tenant: nat): map<nat, Tx> {
    map id | id in txs && txs[id].row.tenant == tenant :: txs[id]
  }

  /** The part of the world that belongs to a tenant. */
  function Alone(w: World, tenant: nat): World {
    World(Mine(w.requests, |w.requests|, tenant), Mine(w.attempts, |w.attempts|, tenant), TxsOf(w.txs, tenant),
          Only(w.holder, tenant), Only(w.growth, tenant), Only(w.lastRead, tenant))
  }

  predicate OwnTx(w: World, id: nat, tenant: nat) {
    id in w.txs && w.txs[id].row.tenant == tenant
  }

  /** The step as the tenant alone makes it, where rows are found at other positions, or no step at all. */
  function OwnSteps(w: World, step: Step, tenant: nat): seq<Step> {
    match step
    case Begin(id, kind, row) => if id !in w.txs && row.tenant == tenant then [step] else []
    case SettleRequest(at, u) =>
      if at < |w.requests| && w.requests[at].tenant == tenant then [SettleRequest(|Mine(w.requests, at, tenant)|, u)] else []
    case SettleAttempt(at, u) =>
      if at < |w.attempts| && w.attempts[at].tenant == tenant then [SettleAttempt(|Mine(w.attempts, at, tenant)|, u)] else []
    case InsertRequest(row) => if row.tenant == tenant then [step] else []
    case _ => if OwnTx(w, step.tx, tenant) then [step] else []
  }

  function OwnRun(plan: Plan, w: World, steps: seq<Step>, n: nat, tenant: nat): seq<Step>
    requires n <= |steps|
  {
    if n == 0 then []
    else OwnRun(plan, w, steps, n - 1, tenant) + OwnSteps(Run(plan, w, steps, n - 1), steps[n - 1], tenant)
  }

  // ---- Aggregates ----

  /** A check sees the same numbers when the other tenants are not there. */
  lemma SameChecks(w: World, limits: TenantLimits, row: Row)
    ensures
      var alone := Alone(w, row.tenant);
      && OverBudget(limits, alone.attempts, row) == OverBudget(limits, w.attempts, row)
      && OverRpm(limits, alone.requests, row) == OverRpm(limits, w.requests, row)
      && OverTpm(limits, alone.requests, row) == OverTpm(limits, w.requests, row)
  {
    var since := row.createdAt - MINUTE;
    SumOfMine(w.attempts, |w.attempts|, row.tenant, TokensOf(row.tenant));
    SumOfMine(w.requests, |w.requests|, row.tenant, RequestsSince(row.tenant, since));
    SumOfMine(w.requests, |w.requests|, row.tenant, TokensSince(row.tenant, since));
  }

  // ---- Transactions ----

  lemma TxOf(w: World, id: nat, tenant: nat)
    ensures OwnTx(w, id, tenant) <==> id in Alone(w, tenant).txs
    ensures OwnTx(w, id, tenant) ==> Alone(w, tenant).txs[id] == w.txs[id]
    ensures tenant in Alone(w, tenant).holder <==> tenant in w.holder
    ensures GrowthOf(Alone(w, tenant), tenant) == GrowthOf(w, tenant)
  {
  }

  lemma UpdatedTxs(txs: map<nat, Tx>, id: nat, tx: Tx, tenant: nat)
    requires id in txs ==> txs[id].row.tenant == tx.row.tenant
    ensures TxsOf(txs[id := tx], tenant) == if tx.row.tenant == tenant then TxsOf(txs, tenant)[id := tx] else TxsOf(txs, tenant)
  {
    var all := txs[id := tx];
    forall i ensures i in TxsOf(all, tenant) <==> i in (if tx.row.tenant == tenant then TxsOf(txs, tenant)[id := tx] else TxsOf(txs, tenant)) {
    }
  }

  lemma UpdatedMap<V>(m: map<nat, V>, key: nat, v: V, tenant: nat)
    ensures Only(m[key := v], tenant) == if key == tenant then Only(m, tenant)[key := v] else Only(m, tenant)
    ensures Only(m - {key}, tenant) == if key == tenant then Only(m, tenant) - {key} else Only(m, tenant)
  {
  }

  /** A transaction alone has the row, the kind and the phase that it has in company. */
  lemma ChangedTx(w: World, id: nat, tx: Tx, tenant: nat)
    requires id in w.txs && tx.row == w.txs[id].row
    ensures
      var w' := w.(txs := w.txs[id := tx]);
      Alone(w', tenant) ==
      if OwnTx(w, id, tenant) then Alone(w, tenant).(txs := Alone(w, tenant).txs[id := tx]) else Alone(w, tenant)
  {
    hide TxsOf, Mine, Only;
    UpdatedTxs(w.txs, id, tx, tenant);
  }

  lemma EndAlone(w: World, id: nat, phase: Phase, tenant: nat)
    requires id in w.txs
    ensures
      Alone(End(w, id, phase), tenant) ==
      if OwnTx(w, id, tenant) && id in Alone(w, tenant).txs then End(Alone(w, tenant), id, phase) else Alone(w, tenant)
  {
    hide TxsOf, Mine;
    TxOf(w, id, tenant);
    UpdatedTxs(w.txs, id, w.txs[id].(phase := phase), tenant);
    UpdatedMap(w.holder, w.txs[id].row.tenant, 0, tenant);
  }

  lemma MoveAlone(w: World, id: nat, phase: Phase, tenant: nat)
    requires id in w.txs
    ensures
      Alone(Move(w, id, phase), tenant) ==
      if OwnTx(w, id, tenant) && id in Alone(w, tenant).txs then Move(Alone(w, tenant), id, phase) else Alone(w, tenant)
  {
    TxOf(w, id, tenant);
    ChangedTx(w, id, w.txs[id].(phase := phase), tenant);
  }

  lemma OpenedAlone(w: World, id: nat, kind: Kind, row: Row, tenant: nat)
    ensures Alone(Opened(w, id, kind, row), tenant) ==
            if id !in w.txs && row.tenant == tenant then Opened(Alone(w, tenant), id, kind, row) else Alone(w, tenant)
  {
    hide TxsOf, Mine, Only;
    if id !in w.txs {
      TxOf(w, id, tenant);
      UpdatedTxs(w.txs, id, Tx(kind, row, Begun, 0), tenant);
    }
  }

  lemma LockTakenAlone(plan: Plan, w: World, id: nat, tenant: nat)
    ensures Alone(LockTaken(plan, w, id), tenant) ==
            if OwnTx(w, id, tenant) then LockTaken(plan, Alone(w, tenant), id) else Alone(w, tenant)
  {
    hide Alone, End, Move;
    TxOf(w, id, tenant);
    if In(w, id, Begun) {
      EndAlone(w, id, RolledBack(StoreFailed), tenant);
      MoveAlone(w, id, Locked, tenant);
      HolderAlone(Move(w, id, Locked), w.txs[id].row.tenant, id, tenant);
      MovedHolder(w, id, tenant);
    }
  }

  lemma HolderAlone(w: World, key: nat, id: nat, tenant: nat)
    ensures Alone(w.(holder := w.holder[key := id]), tenant) ==
            if key == tenant then Alone(w, tenant).(holder := Alone(w, tenant).holder[key := id]) else Alone(w, tenant)
  {
    hide TxsOf, Mine, Only;
    UpdatedMap(w.holder, key, id, tenant);
  }

  lemma MovedHolder(w: World, id: nat, tenant: nat)
    requires id in w.txs
    ensures Move(w, id, Locked).holder == w.holder
    ensures id in Alone(w, tenant).txs ==> Move(Alone(w, tenant), id, Locked).holder == Alone(w, tenant).holder
  {
  }

  lemma BudgetCheckedAlone(plan: Plan, w: World, id: nat, tenant: nat)
    ensures Alone(BudgetChecked(plan, w, id), tenant) ==
            if OwnTx(w, id, tenant) then BudgetChecked(plan, Alone(w, tenant), id) else Alone(w, tenant)
  {
    hide Alone, End, OverBudget, GrowthOf;
    TxOf(w, id, tenant);
    if In(w, id, Locked) {
      var tx := w.txs[id];
      EndAlone(w, id, RolledBack(StoreFailed), tenant);
      EndAlone(w, id, RolledBack(BudgetExceeded), tenant);
      ChangedTx(w, id, tx.(phase := if tx.kind.AttemptAdmission? then Ready else BudgetPassed,
                           growthAtRead := GrowthOf(w, tx.row.tenant)), tenant);
      if tx.row.tenant in plan {
        SameChecks(w, plan[tx.row.tenant], tx.row);
      }
    }
  }

  lemma RpmCheckedAlone(plan: Plan, w: World, id: nat, tenant: nat)
    ensures Alone(RpmChecked(plan, w, id), tenant) ==
            if OwnTx(w, id, tenant) then RpmChecked(plan, Alone(w, tenant), id) else Alone(w, tenant)
  {
    hide Alone, End, Move, OverRpm, OverTpm, OverBudget;
    TxOf(w, id, tenant);
    if In(w, id, BudgetPassed) && w.txs[id].row.tenant in plan {
      EndAlone(w, id, RolledBack(RateLimitExceeded), tenant);
      MoveAlone(w, id, RpmPassed, tenant);
      SameChecks(w, plan[w.txs[id].row.tenant], w.txs[id].row);
    }
  }

  lemma TpmCheckedAlone(plan: Plan, w: World, id: nat, tenant: nat)
    ensures Alone(TpmChecked(plan, w, id), tenant) ==
            if OwnTx(w, id, tenant) then TpmChecked(plan, Alone(w, tenant), id) else Alone(w, tenant)
  {
    hide Alone, End, Move, OverRpm, OverTpm, OverBudget;
    TxOf(w, id, tenant);
    if In(w, id, RpmPassed) && w.txs[id].row.tenant in plan {
      EndAlone(w, id, RolledBack(TokenLimitExceeded), tenant);
      MoveAlone(w, id, Ready, tenant);
      SameChecks(w, plan[w.txs[id].row.tenant], w.txs[id].row);
    }
  }

  lemma AbortedAlone(w: World, id: nat, tenant: nat)
    ensures Alone(Aborted(w, id), tenant) == if OwnTx(w, id, tenant) then Aborted(Alone(w, tenant), id) else Alone(w, tenant)
  {
    hide Alone, End;
    TxOf(w, id, tenant);
    if id in w.txs {
      EndAlone(w, id, RolledBack(StoreFailed), tenant);
    }
  }

  // ---- Tables ----

  lemma RequestAlone(w: World, row: Row, read: int, tenant: nat)
    ensures
      var w' := w.(requests := w.requests + [row], lastRead := w.lastRead[row.tenant := read]);
      var alone := Alone(w, tenant);
      Alone(w', tenant) ==
      if row.tenant == tenant then alone.(requests := alone.requests + [row], lastRead := alone.lastRead[tenant := read]) else alone
  {
    hide TxsOf, Mine, Only;
    MineAppended(w.requests, row, tenant);
    UpdatedMap(w.lastRead, row.tenant, read, tenant);
  }

  lemma AttemptAlone(w: World, row: Row, read: int, tenant: nat)
    ensures
      var w' := w.(attempts := w.attempts + [row], lastRead := w.lastRead[row.tenant := read]);
      var alone := Alone(w, tenant);
      Alone(w', tenant) ==
      if row.tenant == tenant then alone.(attempts := alone.attempts + [row], lastRead := alone.lastRead[tenant := read]) else alone
  {
    hide TxsOf, Mine, Only;
    MineAppended(w.attempts, row, tenant);
    UpdatedMap(w.lastRead, row.tenant, read, tenant);
  }

  lemma InsertedAlone(w: World, id: nat, tenant: nat)
    ensures Alone(Inserted(w, id), tenant) == if OwnTx(w, id, tenant) then Inserted(Alone(w, tenant), id) else Alone(w, tenant)
  {
    hide Alone, End;
    TxOf(w, id, tenant);
    if In(w, id, Ready) {
      var tx, ended := w.txs[id], End(w, id, Committed);
      EndMoves(w, id, Committed);
      EndAlone(w, id, Committed, tenant);
      RequestAlone(ended, tx.row, tx.growthAtRead, tenant);
      AttemptAlone(ended, tx.row, tx.growthAtRead, tenant);
      if OwnTx(w, id, tenant) {
        EndMoves(Alone(w, tenant), id, Committed);
      }
    }
  }

  lemma InsertRequestAlone(w: World, row: Row, tenant: nat)
    ensures
      var alone := Alone(w, tenant);
      Alone(w.(requests := w.requests + [row]), tenant) ==
      if row.tenant == tenant then alone.(requests := alone.requests + [row]) else alone
  {
    hide TxsOf, Mine, Only;
    MineAppended(w.requests, row, tenant);
  }

  lemma RequestSettledAlone(w: World, at: nat, u: Settlement, tenant: nat)
    requires at < |w.requests|
    ensures Alone(RequestSettled(w, at, u), tenant) ==
            if w.requests[at].tenant == tenant then RequestSettled(Alone(w, tenant), |Mine(w.requests, at, tenant)|, u)
            else Alone(w, tenant)
  {
    hide TxsOf, Mine, Only, Settled;
    MineReplaced(w.requests, at, Settled(w.requests[at], u), |w.requests|, tenant);
  }

  lemma AttemptSettledAlone(w: World, at: nat, u: Settlement, tenant: nat)
    requires at < |w.attempts|
    ensures Alone(AttemptSettled(w, at, u), tenant) ==
            if w.attempts[at].tenant == tenant then AttemptSettled(Alone(w, tenant), |Mine(w.attempts, at, tenant)|, u)
            else Alone(w, tenant)
  {
    hide TxsOf, Mine, Only, Settled, GrowthOf;
    var row := w.attempts[at];
    MineReplaced(w.attempts, at, Settled(row, u), |w.attempts|, tenant);
    TxOf(w, 0, tenant);
    UpdatedMap(w.growth, row.tenant, GrowthOf(w, row.tenant) + u.totalTokens - row.totalTokens, tenant);
  }

  // ---- Steps and runs ----

  function ApplyAll(plan: Plan, w: World, steps: seq<Step>): World {
    Run(plan, w, steps, |steps|)
  }

  lemma ApplyOne(plan: Plan, w: World, step: Step)
    ensures ApplyAll(plan, w, [step]) == Apply(plan, w, step)
    ensures ApplyAll(plan, w, []) == w
  {
    hide Apply;
    assert Run(plan, w, [step], 0) == w;
  }

  /** One step, seen from one tenant, is that tenant's own step or none. */
  lemma StepAlone(plan: Plan, w: World, step: Step, tenant: nat)
    ensures Alone(Apply(plan, w, step), tenant) == ApplyAll(plan, Alone(w, tenant), OwnSteps(w, step, tenant))
  {
    hide Alone, Opened, LockTaken, BudgetChecked, RpmChecked, TpmChecked, Inserted, Aborted, RequestSettled, AttemptSettled, ApplyAll;
    TxOf(w, 0, tenant);
    var own := OwnSteps(w, step, tenant);
    ApplyOne(plan, Alone(w, tenant), if own == [] then step else own[0]);
    match step
    case Begin(id, kind, row) => OpenedAlone(w, id, kind, row, tenant);
    case Lock(id) => LockTakenAlone(plan, w, id, tenant);
    case CheckBudget(id) => BudgetCheckedAlone(plan, w, id, tenant);
    case CheckRpm(id) => RpmCheckedAlone(plan, w, id, tenant);
    case CheckTpm(id) => TpmCheckedAlone(plan, w, id, tenant);
    case Commit(id) => InsertedAlone(w, id, tenant);
    case Rollback(id) => AbortedAlone(w, id, tenant);
    case SettleRequest(at, u) => SettleAlone(w, step, tenant);
    case SettleAttempt(at, u) => SettleAlone(w, step, tenant);
    case InsertRequest(row) => InsertRequestAlone(w, row, tenant);
  }

  lemma SettleAlone(w: World, step: Step, tenant: nat)
    requires step.SettleRequest? || step.SettleAttempt?
    ensures
      var w' := Apply(map[], w, step);
      var own := OwnSteps(w, step, tenant);
      Alone(w', tenant) == if own == [] then Alone(w, tenant) else Apply(map[], Alone(w, tenant), own[0])
  {
    hide Alone, Mine, Settled;
    match step
    case SettleRequest(at, u) => if at < |w.requests| { RequestSettledAlone(w, at, u, tenant); }
    case SettleAttempt(at, u) => if at < |w.attempts| { AttemptSettledAlone(w, at, u, tenant); }
  }

  lemma {:induction false} RunsJoin(plan: Plan, w: World, a: seq<Step>, b: seq<Step>, n: nat)
    requires n <= |b|
    ensures Run(plan, w, a + b, |a| + n) == Run(plan, ApplyAll(plan, w, a), b, n)
  {
    hide Apply;
    if n == 0 {
      RunPrefix(plan, w, a, b, |a|);
    } else {
      RunsJoin(plan, w, a, b, n - 1);
    }
  }

  lemma {:induction false} RunPrefix(plan: Plan, w: World, a: seq<Step>, b: seq<Step>, n: nat)
    requires n <= |a|
    ensures Run(plan, w, a + b, n) == Run(plan, w, a, n)
  {
    hide Apply;
    if n > 0 {
      RunPrefix(plan, w, a, b, n - 1);
    }
  }

  /** In every run, what a tenant has in the end is what its own steps give it in a database where it is
      the only tenant. */
  lemma {:induction false} TenantsAreIsolated(plan: Plan, w: World, steps: seq<Step>, n: nat, tenant: nat)
    requires n <= |steps|
    ensures Alone(Run(plan, w, steps, n), tenant) == ApplyAll(plan, Alone(w, tenant), OwnRun(plan, w, steps, n, tenant))
  {
    hide Alone, Apply, OwnSteps;
    if n > 0 {
      TenantsAreIsolated(plan, w, steps, n - 1, tenant);
      var before, mine := Run(plan, w, steps, n - 1), OwnRun(plan, w, steps, n - 1, tenant);
      var own := OwnSteps(before, steps[n - 1], tenant);
      StepAlone(plan, before, steps[n - 1], tenant);
      RunsJoin(plan, Alone(w, tenant), mine, own, |own|);
    }
  }
}
