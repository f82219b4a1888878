/** What planning the orders of a rebalance plan stores, in terms of the plan, the environment and the stored rows alone. */
module OrderPlanning {
  import opened Wrappers
  import opened RiskManager
  import opened ExecutionPlanner
  import opened OrderDesk
  import opened OrderLifecycle
  import opened OrderHistory

  /** The mode plans orders, the sandbox broker being configured if they are for it. */
  predicate ModePlans(env: Environment) {
    match env.mode
    case DRY_RUN => true
    case SANDBOX => env.sandboxConfigured
    case REAL_MANUAL_CONFIRM => true
    case _ => false
  }

  /** The plan and the profile are in order. */
  ghost predicate WellMade(allocations: seq<ExecutionAllocation>, risk: RiskProfile) {
    && risk.orderType == LIMIT && 0.0 <= risk.maxSlippage <= 1.0
    && forall i :: 0 <= i < |allocations| ==>
         allocations[i].lots > 0 && allocations[i].lotSize > 0 && allocations[i].marketPrice > 0.0
  }

  ghost predicate Stored(d: Desk, plan: int, a: ExecutionAllocation) {
    exists id :: id in d.orders && d.orders[id].data.key == IdempotencyKey(plan, a.uid, a.direction)
  }

  /** Two allocations of one side of one instrument, for which no order is stored yet. */
  ghost predicate Clash(d: Desk, plan: int, allocations: seq<ExecutionAllocation>) {
    exists i, j :: 0 <= i < j < |allocations| && allocations[i].uid == allocations[j].uid
                   && allocations[i].direction == allocations[j].direction && !Stored(d, plan, allocations[i])
  }

  /** The market price with the slippage on it, rounded away from it to a full cent. */
  predicate PricedFor(limit: real, a: ExecutionAllocation, slippage: real) {
    && (limit * 100.0).Floor as real == limit * 100.0
    && match a.direction
       case BUY => a.marketPrice * (1.0 + slippage) <= limit < a.marketPrice * (1.0 + slippage) + 0.01
       case SELL => a.marketPrice * (1.0 - slippage) - 0.01 < limit <= a.marketPrice * (1.0 - slippage)
  }

  /** The order of an allocation: its instrument, side and size, waiting if it is to be confirmed by hand. */
  ghost predicate OrderOf(o: PlannedOrder, plan: int, account: string, a: ExecutionAllocation, env: Environment,
                          risk: RiskProfile)
  {
    && o.data.uid == a.uid && o.data.direction == a.direction && o.data.lots == a.lots && o.data.lotSize == a.lotSize
    && o.data.orderType == LIMIT && o.data.tradeMode == env.mode && o.data.key == IdempotencyKey(plan, a.uid, a.direction)
    && PricedFor(o.data.limitPrice, a, risk.maxSlippage)
    && o.account == account && o.status == if env.mode == REAL_MANUAL_CONFIRM then WAITING_CONFIRMATION else PLANNED
  }

  lemma OrderForIs(plan: int, account: string, a: ExecutionAllocation, env: Environment, risk: RiskProfile)
    requires 0.0 <= risk.maxSlippage <= 1.0
    ensures var item := OrderFor(plan, a, risk.maxSlippage, env.mode);
            OrderOf(PlannedOrder(item, account, InitialStatus(env.mode)), plan, account, a, env, risk)
  {
  }

  // ------------------------------------------------------------- the rows added

  ghost predicate Twice(d: Desk, items: seq<PlannedOrderData>) {
    exists i, j :: 0 <= i < j < |items| && items[i].key == items[j].key && !KeyUsed(d, items[i].key)
  }

  /** The commit goes through exactly if no new key comes twice. */
  lemma {:induction false} UniqueExactly(d: Desk, account: string, items: seq<PlannedOrderData>)
    requires KeysUnique(d) && forall id :: id in d.orders ==> id < d.nextId
    ensures KeysUnique(AddOrders(d, d, account, items)) <==> !Twice(d, items)
  {
    hide Twice, KeyUsed;
    if items != [] {
      var n := |items| - 1;
      UniqueExactly(d, account, items[..n]);
      TwiceNext(d, items);
      UniqueNext(d, account, items);
    } else {
      NoneTwice(d);
    }
  }

  lemma NoneTwice(d: Desk)
    ensures !Twice(d, [])
  {
  }

  lemma TwiceNext(d: Desk, items: seq<PlannedOrderData>)
    requires items != []
    ensures var n := |items| - 1;
            Twice(d, items) <==>
              || Twice(d, items[..n])
              || (!KeyUsed(d, items[n].key) && exists i :: 0 <= i < n && items[i].key == items[n].key)
  {
    hide KeyUsed;
    var n := |items| - 1;
    if Twice(d, items[..n]) {
      var i, j :| 0 <= i < j < n && items[..n][i].key == items[..n][j].key && !KeyUsed(d, items[..n][i].key);
      assert items[i].key == items[j].key;
    }
    if Twice(d, items) {
      var i, j :| 0 <= i < j < |items| && items[i].key == items[j].key && !KeyUsed(d, items[i].key);
      if j < n {
        assert items[..n][i].key == items[..n][j].key;
      }
    }
  }

  /** Where no key of the items is stored yet, a key is in use afterwards exactly if an item has it. */
  lemma NewKeyUsed(d: Desk, before: Desk, items: seq<PlannedOrderData>, key: IdempotencyKey)
    requires !KeyUsed(d, key)
    requires forall id :: id in d.orders ==> id in before.orders && before.orders[id] == d.orders[id]
    requires forall item :: item in items ==> KeyUsed(before, item.key)
    requires forall id :: id in before.orders && id !in d.orders ==> before.orders[id].data in items
    ensures KeyUsed(before, key) <==> exists i :: 0 <= i < |items| && items[i].key == key
  {
    if KeyUsed(before, key) {
      var id :| id in before.orders && before.orders[id].data.key == key;
      var i :| 0 <= i < |items| && items[i] == before.orders[id].data;
      assert items[i].key == key;
    }
    if exists i :: 0 <= i < |items| && items[i].key == key {
      var i :| 0 <= i < |items| && items[i].key == key;
      assert items[i] in items;
    }
  }

  lemma UniqueNext(d: Desk, account: string, items: seq<PlannedOrderData>)
    requires items != [] && forall id :: id in d.orders ==> id < d.nextId
    ensures var n := |items| - 1;
            KeysUnique(AddOrders(d, d, account, items)) <==>
              && KeysUnique(AddOrders(d, d, account, items[..n]))
              && (KeyUsed(d, items[n].key) || forall i :: 0 <= i < n ==> items[i].key != items[n].key)
  {
    hide KeysUnique, KeyUsed;
    var n := |items| - 1;
    var init, key := items[..n], items[n].key;
    var before := AddOrders(d, d, account, init);
    AddOrdersKeeps(d, account, init);
    AddOrdersKeys(d, account, init);
    if !KeyUsed(d, key) {
      NewKeyUsed(d, before, init, key);
      assert (exists i :: 0 <= i < n && init[i].key == key) <==> (exists i :: 0 <= i < n && items[i].key == key) by {
        assert forall i :: 0 <= i < n ==> init[i] == items[i];
      }
      RowAdded(before, items[n], account);
    }
  }

  lemma RowAdded(d: Desk, item: PlannedOrderData, account: string)
    requires d.nextId !in d.orders
    ensures var e := d.(orders := d.orders[d.nextId := PlannedOrder(item, account, InitialStatus(item.tradeMode))],
                        nextId := d.nextId + 1);
            KeysUnique(e) <==> KeysUnique(d) && !KeyUsed(d, item.key)
  {
    var e := d.(orders := d.orders[d.nextId := PlannedOrder(item, account, InitialStatus(item.tradeMode))],
                nextId := d.nextId + 1);
    assert e.orders[d.nextId].data == item;
    if KeysUnique(e) {
      forall x, y | x in d.orders && y in d.orders && d.orders[x].data.key == d.orders[y].data.key ensures x == y {
        assert e.orders[x] == d.orders[x] && e.orders[y] == d.orders[y];
      }
      forall id | id in d.orders ensures d.orders[id].data.key != item.key {
        assert e.orders[id].data.key == item.key ==> id == d.nextId;
      }
    }
  }

  /** Every row that was not there before is an item with a new key, for the account and in its first status. */
  lemma {:induction false} NewRows(d: Desk, account: string, items: seq<PlannedOrderData>, id: nat)
    requires forall x :: x in d.orders ==> x < d.nextId
    requires id in AddOrders(d, d, account, items).orders && id !in d.orders
    ensures exists i :: 0 <= i < |items| && !KeyUsed(d, items[i].key)
              && AddOrders(d, d, account, items).orders[id] == PlannedOrder(items[i], account, InitialStatus(items[i].tradeMode))
  {
    hide KeyUsed;
    var n := |items| - 1;
    var before := AddOrders(d, d, account, items[..n]);
    AddOrdersKeeps(d, account, items[..n]);
    if id in before.orders {
      NewRows(d, account, items[..n], id);
      var i :| 0 <= i < n && !KeyUsed(d, items[..n][i].key)
               && before.orders[id] == PlannedOrder(items[..n][i], account, InitialStatus(items[..n][i].tradeMode));
      assert items[i] == items[..n][i];
    } else {
      assert !KeyUsed(d, items[n].key);
    }
  }

  // ------------------------------------------------------------- the call

  lemma ErrorIs(allocations: seq<ExecutionAllocation>, risk: RiskProfile)
    ensures PlanError(allocations, risk.orderType, risk.maxSlippage).None? <==> WellMade(allocations, risk)
  {
    if WellMade(allocations, risk) {
      assert forall a :: a in allocations ==> Tradable(a);
    } else if risk.orderType == LIMIT && 0.0 <= risk.maxSlippage <= 1.0 {
      var i :| 0 <= i < |allocations|
               && !(allocations[i].lots > 0 && allocations[i].lotSize > 0 && allocations[i].marketPrice > 0.0);
      assert allocations[i] in allocations && !Tradable(allocations[i]);
    }
  }

  lemma ClashIs(d: Desk, plan: int, allocations: seq<ExecutionAllocation>, slippage: real, mode: TradeMode)
    ensures Twice(d, OrdersFor(plan, allocations, slippage, mode)) <==> Clash(d, plan, allocations)
  {
    hide LimitPrice, KeyUsed, OrdersFor;
    var items := OrdersFor(plan, allocations, slippage, mode);
    forall i | 0 <= i < |allocations|
      ensures items[i].key == IdempotencyKey(plan, allocations[i].uid, allocations[i].direction)
      ensures KeyUsed(d, items[i].key) <==> Stored(d, plan, allocations[i])
    {
      StoredIs(d, plan, allocations[i]);
    }
    if Clash(d, plan, allocations) {
      var i, j :| 0 <= i < j < |allocations| && allocations[i].uid == allocations[j].uid
                  && allocations[i].direction == allocations[j].direction && !Stored(d, plan, allocations[i]);
      assert items[i].key == items[j].key;
    }
    if Twice(d, items) {
      var i, j :| 0 <= i < j < |items| && items[i].key == items[j].key && !KeyUsed(d, items[i].key);
      assert allocations[i].uid == allocations[j].uid && allocations[i].direction == allocations[j].direction;
    }
  }

  lemma StoredIs(d: Desk, plan: int, a: ExecutionAllocation)
    ensures KeyUsed(d, IdempotencyKey(plan, a.uid, a.direction)) <==> Stored(d, plan, a)
  {
  }

  /**
   * `plan_orders`, exactly. If the mode does not plan, plan or profile is not in order, or a new order would be stored
   * twice, nothing is stored. Otherwise every allocation has its order afterwards: the one stored before, untouched, or a
   * new one of its own size and price; and nothing else is added or changed.
   */
  lemma PlanningExactly(d: Desk, plan: int, account: string, allocations: seq<ExecutionAllocation>,
                        env: Environment, risk: RiskProfile)
    requires Consistent(d)
    ensures var e := PlanPlaced(d, plan, account, allocations, env, risk);
            if !ModePlans(env) || !WellMade(allocations, risk) || Clash(d, plan, allocations) then e == d
            else
              && e.trades == d.trades && e.executions == d.executions && e.posts == d.posts
              && (forall id :: id in d.orders ==> id in e.orders && e.orders[id] == d.orders[id])
              && (forall i :: 0 <= i < |allocations| ==> Stored(e, plan, allocations[i]))
              && (forall id :: id in e.orders && id !in d.orders ==>
                    exists i :: 0 <= i < |allocations| && !Stored(d, plan, allocations[i])
                                && OrderOf(e.orders[id], plan, account, allocations[i], env, risk))
  {
    hide StatusValid, OnePerOrder, AddOrders, KeysUnique, OrdersFor, Clash, Twice, OrderOf, KeyUsed, PlanError, WellMade;
    var items := OrdersFor(plan, allocations, risk.maxSlippage, env.mode);
    ErrorIs(allocations, risk);
    ClashIs(d, plan, allocations, risk.maxSlippage, env.mode);
    UniqueExactly(d, account, items);
    AddOrdersKeeps(d, account, items);
    AddOrdersKeys(d, account, items);
    var e := PlanPlaced(d, plan, account, allocations, env, risk);
    if ModePlans(env) && WellMade(allocations, risk) && !Clash(d, plan, allocations) {
      assert e == AddOrders(d, d, account, items);
      forall i | 0 <= i < |allocations| ensures Stored(e, plan, allocations[i]) {
        assert items[i] in items;
        StoredIs(e, plan, allocations[i]);
      }
      forall id | id in e.orders && id !in d.orders
        ensures exists i :: 0 <= i < |allocations| && !Stored(d, plan, allocations[i])
                            && OrderOf(e.orders[id], plan, account, allocations[i], env, risk)
      {
        NewRows(d, account, items, id);
        var i :| 0 <= i < |items| && !KeyUsed(d, items[i].key)
                 && e.orders[id] == PlannedOrder(items[i], account, InitialStatus(items[i].tradeMode));
        StoredIs(d, plan, allocations[i]);
        WellMadeSlippage(allocations, risk);
        OrderForIs(plan, account, allocations[i], env, risk);
        assert OrderOf(e.orders[id], plan, account, allocations[i], env, risk);
      }
    }
  }

  lemma WellMadeSlippage(allocations: seq<ExecutionAllocation>, risk: RiskProfile)
    requires WellMade(allocations, risk)
    ensures 0.0 <= risk.maxSlippage <= 1.0
  {
  }
}
