/** What the order lifecycle guarantees across time: nothing is rewritten, repeated or sent twice. */
module OrderHistory {
  import opened Wrappers
  import opened RiskManager
  import opened ExecutionPlanner
  import opened OrderDesk
  import opened OrderLifecycle

  predicate Final(status: OrderStatus) {
    status in {RISK_REJECTED, SIMULATED, SUBMITTED, REJECTED}
  }

  /** `e` continues `d`: orders keep their data, final statuses stay, and the logs only grow. */
  ghost predicate Extends(d: Desk, e: Desk) {
    && d.nextId <= e.nextId
    && (forall id :: id in d.orders ==>
          && id in e.orders && e.orders[id].data == d.orders[id].data && e.orders[id].account == d.orders[id].account
          && (Final(d.orders[id].status) ==> e.orders[id].status == d.orders[id].status))
    && d.trades <= e.trades && d.executions <= e.executions && d.posts <= e.posts
  }

  lemma ExtendsTransitive(d: Desk, e: Desk, f: Desk)
    requires Extends(d, e) && Extends(e, f)
    ensures Extends(d, f)
  {
  }

  /** Planning adds rows above the ids in use and touches nothing else. */
  lemma {:induction false} AddOrdersKeeps(d: Desk, account: string, items: seq<PlannedOrderData>)
    requires forall id :: id in d.orders ==> id < d.nextId
    ensures var e := AddOrders(d, d, account, items);
            && d.nextId <= e.nextId && (forall id :: id in e.orders ==> id < e.nextId)
            && (forall id :: id in d.orders ==> id in e.orders && e.orders[id] == d.orders[id])
            && e.trades == d.trades && e.executions == d.executions && e.posts == d.posts
  {
    if items != [] {
      AddOrdersKeeps(d, account, items[..|items| - 1]);
    }
  }

  /** Afterwards every item's key is in use, and every new row is an item whose key was free. */
  lemma {:induction false} AddOrdersKeys(d: Desk, account: string, items: seq<PlannedOrderData>)
    requires forall id :: id in d.orders ==> id < d.nextId
    ensures forall item :: item in items ==> KeyUsed(AddOrders(d, d, account, items), item.key)
    ensures forall id :: id in AddOrders(d, d, account, items).orders && id !in d.orders ==>
              AddOrders(d, d, account, items).orders[id].data in items
              && !KeyUsed(d, AddOrders(d, d, account, items).orders[id].data.key)
  {
    if items != [] {
      var init, item := items[..|items| - 1], items[|items| - 1];
      assert items == init + [item];
      AddOrdersKeys(d, account, init);
      AddOrdersKeeps(d, account, init);
      AddOrdersKeeps(d, account, items);
      var before, after := AddOrders(d, d, account, init), AddOrders(d, d, account, items);
      if KeyUsed(d, item.key) {
        var id :| id in d.orders && d.orders[id].data.key == item.key;
        assert after.orders[id].data.key == item.key;
      } else {
        assert after.orders[before.nextId].data.key == item.key;
      }
      forall x | x in init ensures KeyUsed(after, x.key) {
        var id :| id in before.orders && before.orders[id].data.key == x.key;
        assert after.orders[id].data.key == x.key;
      }
    }
  }

  lemma AddOrdersExtends(d: Desk, account: string, items: seq<PlannedOrderData>)
    requires forall id :: id in d.orders ==> id < d.nextId
    ensures Extends(d, AddOrders(d, d, account, items))
    ensures var e := AddOrders(d, d, account, items);
            e.trades == d.trades && e.executions == d.executions && e.posts == d.posts
  {
    hide AddOrders;
    AddOrdersKeeps(d, account, items);
  }

  /** Changing one open order's status and appending to the logs continues the desk. */
  lemma UpdateExtends(d: Desk, id: nat, status: OrderStatus, e: Desk)
    requires id in d.orders && !Final(d.orders[id].status)
    requires e.orders == d.orders[id := d.orders[id].(status := status)] || e.orders == d.orders
    requires e.nextId == d.nextId && d.trades <= e.trades && d.executions <= e.executions && d.posts <= e.posts
    ensures Extends(d, e)
  {
  }

  lemma ExecuteExtends(d: Desk, id: nat, env: Environment, risk: RiskProfile, crash: bool)
    ensures Extends(d, Execute(d, id, env, risk)) && Extends(d, ExecuteSandbox(d, id, env, risk, crash))
  {
    hide Permitted, TradeAmount, Extends;
    SelfExtends(d);
    if id in d.orders && d.orders[id].status == PLANNED {
      UpdateExtends(d, id, RISK_REJECTED, WithStatus(d, id, RISK_REJECTED));
      UpdateExtends(d, id, SIMULATED, Simulate(d, id, env.stamp));
      UpdateExtends(d, id, PLANNED, PostOrder(d, id));
      UpdateExtends(d, id, SUBMITTED, SaveExecution(PostOrder(d, id), id, env.stamp));
    }
  }

  lemma StepExtends(d: Desk, a: Action, risk: RiskProfile)
    requires Consistent(d)
    ensures Extends(d, Step(d, a, risk))
  {
    hide Permitted, OrdersFor, LimitPrice, AddOrders, StatusValid, KeysUnique, Execute, ExecuteSandbox, Extends;
    match a
    case PlanOrders(plan, account, allocations, env) =>
      SelfExtends(d);
      AddOrdersExtends(d, account, OrdersFor(plan, allocations, risk.maxSlippage, env.mode));
    case ExecuteDryRun(id, env) => ExecuteExtends(d, id, env, risk, false);
    case ExecuteInSandbox(id, env, crash) => ExecuteExtends(d, id, env, risk, crash);
    case ApproveOrder(id, mode) => ManualExtends(d, id, mode);
    case RejectOrder(id, mode) => ManualExtends(d, id, mode);
  }

  lemma ManualExtends(d: Desk, id: nat, mode: TradeMode)
    ensures Extends(d, Approve(d, id, mode)) && Extends(d, Reject(d, id, mode))
  {
    hide Extends;
    SelfExtends(d);
    if id in d.orders && !Final(d.orders[id].status) {
      UpdateExtends(d, id, APPROVED, WithStatus(d, id, APPROVED));
      UpdateExtends(d, id, REJECTED, WithStatus(d, id, REJECTED));
    }
  }

  /** Whatever is called between two moments, the later state extends the earlier one. */
  lemma {:induction false} RunExtends(d: Desk, calls: seq<Call>)
    requires Consistent(d)
    ensures Consistent(Run(d, calls)) && Extends(d, Run(d, calls))
  {
    hide Step, Consistent, Extends;
    if calls == [] {
      SelfExtends(d);
    } else {
      var init, last := calls[..|calls| - 1], calls[|calls| - 1];
      RunExtends(d, init);
      StepExtends(Run(d, init), last.action, last.risk);
      StepConsistent(Run(d, init), last.action, last.risk);
      ExtendsTransitive(d, Run(d, init), Run(d, calls));
    }
  }

  lemma SelfExtends(d: Desk)
    ensures Extends(d, d)
  {
  }

  // ------------------------------------------------------------- exclusivity

  /** An order is simulated or sent to the sandbox, never both, and at most once either way. */
  lemma TradedAtMostOnce(calls: seq<Call>, i: nat, j: nat)
    ensures var d := Run(EMPTY, calls);
            && (i < j < |d.trades| ==> d.trades[i].order != d.trades[j].order)
            && (i < j < |d.executions| ==> d.executions[i].order != d.executions[j].order)
            && (i < |d.trades| && j < |d.executions| ==> d.trades[i].order != d.executions[j].order)
  {
    var d := Run(EMPTY, calls);
    AlwaysConsistent(calls);
    if i < |d.trades| && j < |d.executions| {
      assert StatusValid(d, d.trades[i].order) && StatusValid(d, d.executions[j].order);
    }
  }

  /** A manual-confirmation order is never traded, never reaches the broker, and only waits, is approved or rejected. */
  lemma ManualNeverSent(calls: seq<Call>, id: nat)
    requires id in Run(EMPTY, calls).orders
    requires Run(EMPTY, calls).orders[id].data.tradeMode == REAL_MANUAL_CONFIRM
    ensures var d := Run(EMPTY, calls);
            && d.orders[id].status in {WAITING_CONFIRMATION, APPROVED, REJECTED}
            && !HasTrade(d.trades, id) && !HasExecution(d.executions, id) && !Posted(d, id)
  {
    AlwaysConsistent(calls);
    assert StatusValid(Run(EMPTY, calls), id);
  }

  /**
   * However often a crash between post and commit makes the service post again, the broker sees one
   * `order_id` per planned order, and never the same one for two of them.
   */
  lemma OneOrderIdPerOrder(calls: seq<Call>, i: nat, j: nat)
    requires i < |Run(EMPTY, calls).posts| && j < |Run(EMPTY, calls).posts|
    ensures var posts := Run(EMPTY, calls).posts;
            posts[i].orderId == posts[j].orderId <==> posts[i].order == posts[j].order
  {
    AlwaysConsistent(calls);
  }

  // ------------------------------------------------------------- posts and their records

  /** The call posts its order and ends before the record is committed. */
  ghost predicate CutAfterPost(d: Desk, a: Action, risk: RiskProfile) {
    && a.ExecuteInSandbox? && a.crash && a.env.sandboxConfigured && a.id in d.orders
    && !HasExecution(d.executions, a.id) && d.orders[a.id].status == PLANNED
    && Permitted(d, a.id, a.env, risk, SANDBOX)
  }

  ghost function CutPosts(calls: seq<Call>): nat {
    if calls == [] then 0
    else
      var n := |calls| - 1;
      CutPosts(calls[..n]) + if CutAfterPost(Run(EMPTY, calls[..n]), calls[n].action, calls[n].risk) then 1 else 0
  }

  ghost predicate Matched(d: Desk) {
    |d.posts| == |d.executions| && forall i :: 0 <= i < |d.posts| ==> d.posts[i].order == d.executions[i].order
  }

  ghost predicate PostedAndRecorded(d: Desk, e: Desk) {
    && |e.posts| == |d.posts| + 1 && e.posts[..|d.posts|] == d.posts
    && |e.executions| == |d.executions| + 1 && e.executions[..|d.executions|] == d.executions
    && e.posts[|d.posts|].order == e.executions[|d.executions|].order
  }

  /** A call posts at most once, and without a record only if it is cut after the post. */
  lemma StepPosts(d: Desk, a: Action, risk: RiskProfile)
    requires Consistent(d)
    ensures var e := Step(d, a, risk);
            if CutAfterPost(d, a, risk) then
              e.posts == d.posts + [Post(a.id, d.orders[a.id].data.key)] && e.executions == d.executions
            else (e.posts == d.posts && e.executions == d.executions) || PostedAndRecorded(d, e)
  {
    hide AddOrders, Permitted, OrdersFor, LimitPrice, TradeAmount, Consistent, KeysUnique;
    match a
    case PlanOrders(plan, account, allocations, env) => PlanKeepsLogs(d, plan, account, allocations, env, risk);
    case _ =>
  }

  /**
   * In every run there are as many posts as execution rows plus calls cut after the post. So every post has its
   * record, one to one, exactly if no call was cut there; a crash in a call that the gate refused does no harm.
   */
  lemma {:induction false} PostsRecorded(calls: seq<Call>)
    ensures var d := Run(EMPTY, calls);
            && |d.posts| == |d.executions| + CutPosts(calls)
            && (Matched(d) <==> CutPosts(calls) == 0)
  {
    hide Step, CutAfterPost, Consistent;
    if calls != [] {
      var n := |calls| - 1;
      PostsRecorded(calls[..n]);
      AlwaysConsistent(calls[..n]);
      StepPosts(Run(EMPTY, calls[..n]), calls[n].action, calls[n].risk);
    }
  }

  lemma PlanKeepsLogs(d: Desk, plan: int, account: string, allocations: seq<ExecutionAllocation>,
                      env: Environment, risk: RiskProfile)
    requires Consistent(d)
    ensures var e := PlanPlaced(d, plan, account, allocations, env, risk);
            e.trades == d.trades && e.executions == d.executions && e.posts == d.posts
  {
    hide OrdersFor, LimitPrice, AddOrders, StatusValid, KeysUnique;
    AddOrdersExtends(d, account, OrdersFor(plan, allocations, risk.maxSlippage, env.mode));
  }

  /**
   * After a cut post the order is still planned. The next call that gets through records it if the gate permits
   * it then, and otherwise rejects it; either way for good, and the broker holds the order all along.
   */
  lemma AfterCutPost(d: Desk, id: nat, env: Environment, risk: RiskProfile, between: seq<Call>,
                     retry: Environment, newRisk: RiskProfile, later: seq<Call>)
    requires Consistent(d) && CutAfterPost(d, ExecuteInSandbox(id, env, true), risk)
    requires retry.sandboxConfigured
    requires id in Run(ExecuteSandbox(d, id, env, risk, true), between).orders
    requires Run(ExecuteSandbox(d, id, env, risk, true), between).orders[id].status == PLANNED
    ensures var now := Run(ExecuteSandbox(d, id, env, risk, true), between);
            var e := Run(ExecuteSandbox(now, id, retry, newRisk, false), later);
            && id in e.orders && Posted(e, id)
            && (HasExecution(e.executions, id) <==> Permitted(now, id, retry, newRisk, SANDBOX))
            && e.orders[id].status == if Permitted(now, id, retry, newRisk, SANDBOX) then SUBMITTED else RISK_REJECTED
  {
    hide Permitted, Run, StatusValid, KeysUnique, RowsValid, OnePerOrder;
    var posted := ExecuteSandbox(d, id, env, risk, true);
    ExecuteSandboxConsistent(d, id, env, risk, true);
    RunExtends(posted, between);
    var now := Run(posted, between);
    NotTraded(now, id) by { ValidStatus(now, id); }
    var after := ExecuteSandbox(now, id, retry, newRisk, false);
    ExecuteSandboxConsistent(now, id, retry, newRisk, false);
    RunExtends(after, later);
    var e := Run(after, later);
    ExecuteExtends(now, id, retry, newRisk, false);
    assert posted.posts[|d.posts|].order == id;
    assert e.posts[|d.posts|].order == id;
    ValidStatus(e, id);
    StatusTellsExecution(e, id);
  }

  lemma ValidStatus(d: Desk, id: nat)
    requires Consistent(d) && id in d.orders
    ensures StatusValid(d, id)
  {
  }

  lemma StatusTellsExecution(d: Desk, id: nat)
    requires id in d.orders && StatusValid(d, id)
    ensures d.orders[id].status == SUBMITTED <==> HasExecution(d.executions, id)
  {
  }

  // ------------------------------------------------------------- a planned order left behind

  predicate SameSide(x: PlannedOrderData, y: PlannedOrderData) {
    x.uid == y.uid && x.direction == y.direction
  }

  predicate Executes(a: Action, id: nat) {
    (a.ExecuteDryRun? || a.ExecuteInSandbox?) && a.id == id
  }

  lemma BlockedByDuplicate(d: Desk, id: nat, left: nat, env: Environment, risk: RiskProfile, required: TradeMode)
    requires id in d.orders && left in d.orders && id != left
    requires d.orders[left].status == PLANNED && SameSide(d.orders[left].data, d.orders[id].data)
    ensures !Permitted(d, id, env, risk, required)
  {
    hide TradeAmount, SlippageRejected, TooHeavy, CoolingDown, CountSince;
    assert Duplicated(d, id);
    assert Applies(DuplicateOrder, d.orders[id].data, Context(d, id, env, risk, required));
  }

  /** No row of the three logs from the given lengths on belongs to the side of order `left`. */
  ghost predicate SideIdleSince(d: Desk, left: nat, trades: nat, executions: nat, posts: nat)
    requires RowsValid(d) && left in d.orders
  {
    && (forall i :: trades <= i < |d.trades| ==> !SameSide(d.orders[left].data, d.orders[d.trades[i].order].data))
    && (forall i :: executions <= i < |d.executions| ==>
          !SameSide(d.orders[left].data, d.orders[d.executions[i].order].data))
    && (forall i :: posts <= i < |d.posts| ==> !SameSide(d.orders[left].data, d.orders[d.posts[i].order].data))
  }

  /** A call leaves the order's side idle: it blocks the gate, and only the gate's orders are traded or posted. */
  lemma StepIdle(d: Desk, a: Action, risk: RiskProfile, left: nat, trades: nat, executions: nat, posts: nat)
    requires Consistent(d) && left in d.orders && d.orders[left].status == PLANNED && !Executes(a, left)
    requires trades <= |d.trades| && executions <= |d.executions| && posts <= |d.posts|
    requires SideIdleSince(d, left, trades, executions, posts)
    requires RowsValid(Step(d, a, risk)) && Extends(d, Step(d, a, risk))
    ensures SideIdleSince(Step(d, a, risk), left, trades, executions, posts)
  {
    hide AddOrders, Permitted, OrdersFor, LimitPrice, TradeAmount, KeysUnique, StatusValid, OnePerOrder, SideIdleSince;
    match a
    case PlanOrders(plan, account, allocations, env) =>
      PlanKeepsLogs(d, plan, account, allocations, env, risk);
      SameLogsIdle(d, Step(d, a, risk), left, trades, executions, posts);
    case ExecuteDryRun(id, env) =>
      if id in d.orders && SameSide(d.orders[left].data, d.orders[id].data) {
        BlockedByDuplicate(d, id, left, env, risk, DRY_RUN);
        SameLogsIdle(d, Step(d, a, risk), left, trades, executions, posts);
      } else {
        OtherLogsIdle(d, Step(d, a, risk), left, id, trades, executions, posts);
      }
    case ExecuteInSandbox(id, env, crash) =>
      if id in d.orders && SameSide(d.orders[left].data, d.orders[id].data) {
        BlockedByDuplicate(d, id, left, env, risk, SANDBOX);
        SameLogsIdle(d, Step(d, a, risk), left, trades, executions, posts);
      } else {
        OtherLogsIdle(d, Step(d, a, risk), left, id, trades, executions, posts);
      }
    case _ => SameLogsIdle(d, Step(d, a, risk), left, trades, executions, posts);
  }

  lemma SameLogsIdle(d: Desk, e: Desk, left: nat, trades: nat, executions: nat, posts: nat)
    requires RowsValid(d) && RowsValid(e) && Extends(d, e) && left in d.orders
    requires e.trades == d.trades && e.executions == d.executions && e.posts == d.posts
    requires SideIdleSince(d, left, trades, executions, posts)
    ensures SideIdleSince(e, left, trades, executions, posts)
  {
  }

  /** New rows of an order on another side. */
  lemma OtherLogsIdle(d: Desk, e: Desk, left: nat, id: nat, trades: nat, executions: nat, posts: nat)
    requires RowsValid(d) && RowsValid(e) && Extends(d, e) && left in d.orders
    requires id in d.orders ==> !SameSide(d.orders[left].data, d.orders[id].data)
    requires forall i :: |d.trades| <= i < |e.trades| ==> e.trades[i].order == id && id in d.orders
    requires forall i :: |d.executions| <= i < |e.executions| ==> e.executions[i].order == id && id in d.orders
    requires forall i :: |d.posts| <= i < |e.posts| ==> e.posts[i].order == id && id in d.orders
    requires SideIdleSince(d, left, trades, executions, posts)
    ensures SideIdleSince(e, left, trades, executions, posts)
  {
  }

  /** Only its own execution ends an order's being planned, unless it is a manual one. */
  lemma StaysPlanned(d: Desk, a: Action, risk: RiskProfile, left: nat)
    requires Consistent(d) && left in d.orders && d.orders[left].status == PLANNED && !Executes(a, left)
    ensures left in Step(d, a, risk).orders && Step(d, a, risk).orders[left].status == PLANNED
  {
    hide AddOrders, Permitted, OrdersFor, LimitPrice, TradeAmount, KeysUnique, StatusValid, OnePerOrder;
    ValidStatus(d, left);
    PlannedIsNotManual(d, left);
    match a
    case PlanOrders(plan, account, allocations, env) =>
      AddOrdersKeeps(d, account, OrdersFor(plan, allocations, risk.maxSlippage, env.mode));
    case _ =>
  }

  lemma StepBlocks(d: Desk, a: Action, risk: RiskProfile, left: nat, trades: nat, executions: nat, posts: nat)
    requires Consistent(d) && left in d.orders && d.orders[left].status == PLANNED && !Executes(a, left)
    requires trades <= |d.trades| && executions <= |d.executions| && posts <= |d.posts|
    requires SideIdleSince(d, left, trades, executions, posts)
    ensures Consistent(Step(d, a, risk)) && left in Step(d, a, risk).orders
    ensures Step(d, a, risk).orders[left].status == PLANNED
    ensures SideIdleSince(Step(d, a, risk), left, trades, executions, posts)
  {
    hide Step, RowsValid, KeysUnique, StatusValid, OnePerOrder, Extends, SideIdleSince;
    StepConsistent(d, a, risk);
    StepExtends(d, a, risk);
    StaysPlanned(d, a, risk, left);
    StepIdle(d, a, risk, left, trades, executions, posts);
  }

  lemma PlannedIsNotManual(d: Desk, id: nat)
    requires id in d.orders && StatusValid(d, id) && d.orders[id].status == PLANNED
    ensures d.orders[id].data.tradeMode != REAL_MANUAL_CONFIRM
  {
  }

  /**
   * A planned order left behind, say by a cycle that failed before reaching it, stops its side of its instrument:
   * until it is executed itself, no other order of that side, stored already or planned later, is ever simulated,
   * posted or recorded.
   */
  lemma {:induction false} LeftOrderBlocksItsSide(d: Desk, calls: seq<Call>, left: nat)
    requires Consistent(d) && left in d.orders && d.orders[left].status == PLANNED
    requires forall i :: 0 <= i < |calls| ==> !Executes(calls[i].action, left)
    ensures var e := Run(d, calls);
            && Consistent(e) && Extends(d, e) && left in e.orders && e.orders[left].status == PLANNED
            && SideIdleSince(e, left, |d.trades|, |d.executions|, |d.posts|)
  {
    hide Step, KeysUnique, StatusValid, OnePerOrder, Extends, SideIdleSince;
    RunExtends(d, calls);
    if calls == [] {
      IdleYet(d, left);
    } else {
      var n := |calls| - 1;
      LeftOrderBlocksItsSide(d, calls[..n], left);
      LogsGrown(d, Run(d, calls[..n]));
      StepBlocks(Run(d, calls[..n]), calls[n].action, calls[n].risk, left, |d.trades|, |d.executions|, |d.posts|);
    }
  }

  lemma IdleYet(d: Desk, left: nat)
    requires RowsValid(d) && left in d.orders
    ensures SideIdleSince(d, left, |d.trades|, |d.executions|, |d.posts|)
  {
  }

  lemma LogsGrown(d: Desk, e: Desk)
    requires Extends(d, e)
    ensures |d.trades| <= |e.trades| && |d.executions| <= |e.executions| && |d.posts| <= |e.posts|
  {
  }

  /** Executing it, in any environment, releases the side: it is traded or rejected, and planned no longer. */
  lemma ExecutingReleases(d: Desk, left: nat, env: Environment, risk: RiskProfile)
    requires Consistent(d) && left in d.orders && d.orders[left].status == PLANNED
    ensures Execute(d, left, env, risk).orders[left].status in {SIMULATED, RISK_REJECTED}
    ensures env.sandboxConfigured ==> ExecuteSandbox(d, left, env, risk, false).orders[left].status in {SUBMITTED, RISK_REJECTED}
  {
    hide Permitted, TradeAmount, KeysUnique;
    ValidStatus(d, left);
    NotTraded(d, left);
  }

  // ------------------------------------------------------------- planning again

  ghost predicate SameSides(xs: seq<ExecutionAllocation>, ys: seq<ExecutionAllocation>) {
    |xs| == |ys| && forall i :: 0 <= i < |xs| ==> xs[i].uid == ys[i].uid && xs[i].direction == ys[i].direction
  }

  ghost predicate KeysStored(d: Desk, items: seq<PlannedOrderData>) {
    forall i :: 0 <= i < |items| ==> KeyUsed(d, items[i].key)
  }

  lemma {:induction false} StoredAddsNothing(d: Desk, account: string, items: seq<PlannedOrderData>)
    requires KeysStored(d, items)
    ensures AddOrders(d, d, account, items) == d
  {
    if items != [] {
      StoredAddsNothing(d, account, items[..|items| - 1]);
    }
  }

  lemma {:induction false} AddedKeysUnique(d: Desk, account: string, items: seq<PlannedOrderData>)
    requires KeysUnique(d) && forall id :: id in d.orders ==> id < d.nextId
    requires forall i, j :: 0 <= i < j < |items| ==> items[i].key != items[j].key
    ensures KeysUnique(AddOrders(d, d, account, items))
  {
    if items != [] {
      var init, item := items[..|items| - 1], items[|items| - 1];
      AddedKeysUnique(d, account, init);
      AddOrdersKeeps(d, account, init);
      AddOrdersKeys(d, account, init);
      var before := AddOrders(d, d, account, init);
      forall id | id in before.orders && !KeyUsed(d, item.key) ensures before.orders[id].data.key != item.key {
        if id in d.orders {
          assert before.orders[id].data == d.orders[id].data;
        } else {
          assert before.orders[id].data in init;
        }
      }
    }
  }

  lemma ExtendsKeys(d: Desk, e: Desk, items: seq<PlannedOrderData>)
    requires KeysStored(d, items) && Extends(d, e)
    ensures KeysStored(e, items)
  {
    forall i | 0 <= i < |items| ensures KeyUsed(e, items[i].key) {
      assert KeyUsed(d, items[i].key);
      var id :| id in d.orders && d.orders[id].data.key == items[i].key;
      assert e.orders[id].data.key == items[i].key;
    }
  }

  /**
   * Planning the same rebalance plan again adds no order, whatever happened in between and even under
   * another trade mode, slippage or price: the keys name only plan, instrument and side.
   */
  lemma ReplanningAddsNothing(d: Desk, plan: int, account: string,
                              xs: seq<ExecutionAllocation>, env: Environment, risk: RiskProfile, between: seq<Call>,
                              ys: seq<ExecutionAllocation>, later: Environment, newRisk: RiskProfile)
    requires Consistent(d) && SameSides(xs, ys) && DistinctSides(xs)
    requires ModeCanPlan(env) && PlanError(xs, risk.orderType, risk.maxSlippage).None?
    ensures var now := Run(PlanPlaced(d, plan, account, xs, env, risk), between);
            PlanPlaced(now, plan, account, ys, later, newRisk) == now
  {
    hide Permitted, LimitPrice, AddOrders, StatusValid, Extends, Run;
    var items := OrdersFor(plan, xs, risk.maxSlippage, env.mode);
    var placed := PlanPlaced(d, plan, account, xs, env, risk);
    AddOrdersKeys(d, account, items);
    AddedKeysUnique(d, account, items);
    assert KeysStored(placed, items);
    PlanConsistent(d, plan, account, xs, env, risk);
    RunExtends(placed, between);
    var now := Run(placed, between);
    ExtendsKeys(placed, now, items);
    var again := OrdersFor(plan, ys, newRisk.maxSlippage, later.mode);
    assert KeysStored(now, again) by {
      forall i | 0 <= i < |again| ensures KeyUsed(now, again[i].key) {
        assert again[i].key == items[i].key;
      }
    }
    StoredAddsNothing(now, account, again);
  }
}
