/** Invariants of the order lifecycle, over every sequence of service calls. */
module OrderLifecycle {
  import opened Wrappers
  import opened RiskManager
  import opened ExecutionPlanner
  import opened OrderDesk

  datatype Action =
    | PlanOrders(plan: int, account: string, allocations: seq<ExecutionAllocation>, env: Environment)
    | ExecuteDryRun(id: nat, env: Environment)
    | ExecuteInSandbox(id: nat, env: Environment, crash: bool)
    | ApproveOrder(id: nat, mode: TradeMode)
    | RejectOrder(id: nat, mode: TradeMode)

  ghost function Step(d: Desk, a: Action, risk: RiskProfile): Desk {
    match a
    case PlanOrders(plan, account, allocations, env) => PlanPlaced(d, plan, account, allocations, env, risk)
    case ExecuteDryRun(id, env) => Execute(d, id, env, risk)
    case ExecuteInSandbox(id, env, crash) => ExecuteSandbox(d, id, env, risk, crash)
    case ApproveOrder(id, mode) => Approve(d, id, mode)
    case RejectOrder(id, mode) => Reject(d, id, mode)
  }

  /** A run in which even the risk profile may change from call to call. */
  datatype Call = Call(action: Action, risk: RiskProfile)

  ghost function Run(d: Desk, calls: seq<Call>): Desk {
    if calls == [] then d
    else Step(Run(d, calls[..|calls| - 1]), calls[|calls| - 1].action, calls[|calls| - 1].risk)
  }

  const EMPTY := Desk(map[], [], [], [], 0)

  // ------------------------------------------------------------- the invariant

  /** An order's key names its instrument and side. */
  predicate KeyNames(data: PlannedOrderData) {
    data.key.uid == data.uid && data.key.direction == data.direction
  }

  ghost predicate RowsValid(d: Desk) {
    && (forall id :: id in d.orders ==> id < d.nextId && KeyNames(d.orders[id].data))
    && (forall i :: 0 <= i < |d.trades| ==>
          d.trades[i].order in d.orders && d.trades[i].uid == d.orders[d.trades[i].order].data.uid)
    && (forall i :: 0 <= i < |d.executions| ==>
          d.executions[i].order in d.orders && d.executions[i].uid == d.orders[d.executions[i].order].data.uid)
    && (forall i :: 0 <= i < |d.posts| ==>
          && d.posts[i].order in d.orders
          && d.posts[i].orderId == d.orders[d.posts[i].order].data.key
          && d.orders[d.posts[i].order].data.tradeMode == SANDBOX)
  }

  ghost predicate OnePerOrder(d: Desk) {
    && (forall i, j :: 0 <= i < j < |d.trades| ==> d.trades[i].order != d.trades[j].order)
    && (forall i, j :: 0 <= i < j < |d.executions| ==> d.executions[i].order != d.executions[j].order)
  }

  ghost predicate Posted(d: Desk, id: nat) {
    exists i :: 0 <= i < |d.posts| && d.posts[i].order == id
  }

  ghost predicate StatusValid(d: Desk, id: nat)
    requires id in d.orders
  {
    var status, mode := d.orders[id].status, d.orders[id].data.tradeMode;
    && (status == SIMULATED <==> HasTrade(d.trades, id))
    && (status == SIMULATED ==> mode == DRY_RUN)
    && (status == SUBMITTED <==> HasExecution(d.executions, id))
    && (status == SUBMITTED ==> mode == SANDBOX && Posted(d, id))
    && (mode == REAL_MANUAL_CONFIRM <==> status in {WAITING_CONFIRMATION, APPROVED, REJECTED})
  }

  ghost predicate Consistent(d: Desk) {
    && RowsValid(d) && OnePerOrder(d) && KeysUnique(d)
    && forall id :: id in d.orders ==> StatusValid(d, id)
  }

  // ------------------------------------------------------------- preservation

  lemma StatusChanged(d: Desk, id: nat, status: OrderStatus)
    requires Consistent(d) && id in d.orders
    requires d.orders[id].status !in {SIMULATED, SUBMITTED} && status !in {SIMULATED, SUBMITTED}
    requires d.orders[id].data.tradeMode == REAL_MANUAL_CONFIRM <==> status in {WAITING_CONFIRMATION, APPROVED, REJECTED}
    ensures Consistent(WithStatus(d, id, status))
  {
    hide KeysUnique;
    var e := WithStatus(d, id, status);
    KeysKept(d, e);
    forall x | x in e.orders ensures StatusValid(e, x) {
      assert StatusValid(d, x);
    }
  }

  lemma PermittedMode(d: Desk, id: nat, env: Environment, risk: RiskProfile, required: TradeMode)
    requires id in d.orders && Permitted(d, id, env, risk, required)
    ensures d.orders[id].data.tradeMode == required == env.mode && !env.killSwitch
  {
    assert !Applies(WrongTradeMode, d.orders[id].data, Context(d, id, env, risk, required));
    assert !Applies(KillSwitchActive, d.orders[id].data, Context(d, id, env, risk, required));
  }

  lemma ExecuteConsistent(d: Desk, id: nat, env: Environment, risk: RiskProfile)
    requires Consistent(d)
    ensures Consistent(Execute(d, id, env, risk))
  {
    hide Permitted;
    if id in d.orders && d.orders[id].status == PLANNED && !HasTrade(d.trades, id) {
      assert StatusValid(d, id);
      if Permitted(d, id, env, risk, DRY_RUN) {
        PermittedMode(d, id, env, risk, DRY_RUN);
        SimulateConsistent(d, id, env.stamp);
      } else {
        StatusChanged(d, id, RISK_REJECTED);
      }
    }
  }

  /** Keys stay unique while orders keep their data. */
  lemma KeysKept(d: Desk, e: Desk)
    requires KeysUnique(d) && e.orders.Keys == d.orders.Keys
    requires forall id :: id in d.orders ==> e.orders[id].data == d.orders[id].data
    ensures KeysUnique(e)
  {
  }

  lemma SimulateStatus(d: Desk, id: nat, at: int, x: nat)
    requires RowsValid(d) && id in d.orders && d.orders[id].status == PLANNED && d.orders[id].data.tradeMode == DRY_RUN
    requires x in d.orders && StatusValid(d, x)
    ensures StatusValid(Simulate(d, id, at), x)
  {
    hide TradeAmount;
    var e := Simulate(d, id, at);
    assert e.trades[|d.trades|].order == id;
    if HasTrade(d.trades, x) {
      var i :| 0 <= i < |d.trades| && d.trades[i].order == x;
      assert e.trades[i].order == x;
    }
  }

  lemma SimulateConsistent(d: Desk, id: nat, at: int)
    requires Consistent(d) && id in d.orders && d.orders[id].status == PLANNED
    requires d.orders[id].data.tradeMode == DRY_RUN
    ensures Consistent(Simulate(d, id, at))
  {
    hide TradeAmount, KeysUnique, StatusValid;
    var e := Simulate(d, id, at);
    KeysKept(d, e);
    NotTraded(d, id);
    forall x | x in e.orders ensures StatusValid(e, x) {
      SimulateStatus(d, id, at, x);
    }
  }

  lemma NotTraded(d: Desk, id: nat)
    requires id in d.orders && StatusValid(d, id) && d.orders[id].status == PLANNED
    ensures !HasTrade(d.trades, id) && !HasExecution(d.executions, id)
  {
  }

  lemma PostConsistent(d: Desk, id: nat)
    requires Consistent(d) && id in d.orders && d.orders[id].data.tradeMode == SANDBOX
    ensures Consistent(PostOrder(d, id)) && Posted(PostOrder(d, id), id)
  {
    hide KeysUnique;
    var e := PostOrder(d, id);
    KeysKept(d, e);
    assert e.posts[|d.posts|].order == id;
    forall x | x in e.orders ensures StatusValid(e, x) {
      assert StatusValid(d, x);
      if Posted(d, x) {
        var i :| 0 <= i < |d.posts| && d.posts[i].order == x;
        assert e.posts[i].order == x;
      }
    }
  }

  lemma SaveExecutionStatus(d: Desk, id: nat, at: int, x: nat)
    requires RowsValid(d) && id in d.orders && d.orders[id].status == PLANNED
    requires d.orders[id].data.tradeMode == SANDBOX && Posted(d, id)
    requires x in d.orders && StatusValid(d, x)
    ensures StatusValid(SaveExecution(d, id, at), x)
  {
    var e := SaveExecution(d, id, at);
    assert e.executions[|d.executions|].order == id;
    if HasExecution(d.executions, x) {
      var i :| 0 <= i < |d.executions| && d.executions[i].order == x;
      assert e.executions[i].order == x;
    }
  }

  lemma SaveExecutionConsistent(d: Desk, id: nat, at: int)
    requires Consistent(d) && id in d.orders && d.orders[id].status == PLANNED
    requires d.orders[id].data.tradeMode == SANDBOX && Posted(d, id)
    ensures Consistent(SaveExecution(d, id, at))
  {
    hide KeysUnique, StatusValid, Posted;
    var e := SaveExecution(d, id, at);
    KeysKept(d, e);
    NotTraded(d, id);
    forall x | x in e.orders ensures StatusValid(e, x) {
      SaveExecutionStatus(d, id, at, x);
    }
  }

  lemma ExecuteSandboxConsistent(d: Desk, id: nat, env: Environment, risk: RiskProfile, crash: bool)
    requires Consistent(d)
    ensures Consistent(ExecuteSandbox(d, id, env, risk, crash))
  {
    hide Permitted, PostOrder, SaveExecution;
    if env.sandboxConfigured && id in d.orders && d.orders[id].status == PLANNED && !HasExecution(d.executions, id) {
      assert StatusValid(d, id);
      if Permitted(d, id, env, risk, SANDBOX) {
        PermittedMode(d, id, env, risk, SANDBOX);
        PostConsistent(d, id);
        PostKeepsOrders(d, id);
        SaveExecutionConsistent(PostOrder(d, id), id, env.stamp);
      } else {
        StatusChanged(d, id, RISK_REJECTED);
      }
    }
  }

  lemma PostKeepsOrders(d: Desk, id: nat)
    requires id in d.orders
    ensures PostOrder(d, id).orders == d.orders
  {
  }

  /** Everything but the uniqueness of keys, which the database checks at commit. */
  ghost predicate ConsistentRows(d: Desk) {
    RowsValid(d) && OnePerOrder(d) && forall id :: id in d.orders ==> StatusValid(d, id)
  }

  lemma AddOneConsistent(d: Desk, item: PlannedOrderData, account: string)
    requires ConsistentRows(d) && item.tradeMode in {DRY_RUN, SANDBOX, REAL_MANUAL_CONFIRM} && KeyNames(item)
    ensures ConsistentRows(d.(orders := d.orders[d.nextId := PlannedOrder(item, account, InitialStatus(item.tradeMode))],
                              nextId := d.nextId + 1))
  {
    var e := d.(orders := d.orders[d.nextId := PlannedOrder(item, account, InitialStatus(item.tradeMode))],
                nextId := d.nextId + 1);
    assert d.nextId !in d.orders;
    forall x | x in e.orders ensures StatusValid(e, x) {
      if x in d.orders {
        assert StatusValid(d, x);
      }
    }
  }

  lemma {:induction false} AddOrdersConsistent(d: Desk, account: string, items: seq<PlannedOrderData>)
    requires ConsistentRows(d)
    requires forall item :: item in items ==> item.tradeMode in {DRY_RUN, SANDBOX, REAL_MANUAL_CONFIRM} && KeyNames(item)
    ensures ConsistentRows(AddOrders(d, d, account, items))
  {
    hide ConsistentRows, KeyUsed;
    if items != [] {
      var init, item := items[..|items| - 1], items[|items| - 1];
      assert item in items;
      AddOrdersConsistent(d, account, init);
      AddOneConsistent(AddOrders(d, d, account, init), item, account);
    }
  }

  lemma PlanConsistent(d: Desk, plan: int, account: string, allocations: seq<ExecutionAllocation>,
                       env: Environment, risk: RiskProfile)
    requires Consistent(d)
    ensures Consistent(PlanPlaced(d, plan, account, allocations, env, risk))
  {
    hide RowsValid, OnePerOrder, StatusValid, KeysUnique, LimitPrice, AddOrders;
    if ModeCanPlan(env) {
      var items := OrdersFor(plan, allocations, risk.maxSlippage, env.mode);
      AddOrdersConsistent(d, account, items);
    }
  }

  lemma StepConsistent(d: Desk, a: Action, risk: RiskProfile)
    requires Consistent(d)
    ensures Consistent(Step(d, a, risk))
  {
    hide PlanPlaced, Execute, ExecuteSandbox, WithStatus, RowsValid, OnePerOrder, KeysUnique;
    match a
    case PlanOrders(plan, account, allocations, env) => PlanConsistent(d, plan, account, allocations, env, risk);
    case ExecuteDryRun(id, env) => ExecuteConsistent(d, id, env, risk);
    case ExecuteInSandbox(id, env, crash) => ExecuteSandboxConsistent(d, id, env, risk, crash);
    case ApproveOrder(id, mode) =>
      if Approve(d, id, mode) != d {
        StatusChanged(d, id, APPROVED);
      }
    case RejectOrder(id, mode) =>
      if Reject(d, id, mode) != d {
        StatusChanged(d, id, REJECTED);
      }
  }

  /** The lifecycle invariant holds after every sequence of calls, crashes included. */
  lemma {:induction false} AlwaysConsistent(calls: seq<Call>)
    ensures Consistent(Run(EMPTY, calls))
  {
    hide Step;
    if calls != [] {
      AlwaysConsistent(calls[..|calls| - 1]);
      StepConsistent(Run(EMPTY, calls[..|calls| - 1]), calls[|calls| - 1].action, calls[|calls| - 1].risk);
    }
  }
}
