/** A deposit that starts its cycle: the bound on event-triggered cycles is attained. */
module TriggerScenarios {
  import opened Wrappers
  import opened Operations
  import opened Reconciliation
  import opened RiskManager
  import opened E = EventTriggers
  import A = Automation
  import L = ReconciliationLimits
  import P = ReconciliationProperties

  const LISTED := Settings(Listing, 0, 1)

  const PAID_IN := Attempt([L.Deposit("d", 0)], 0, true, {MANUAL}, Fault.NoFault)

  const START := NewLedger("acc")

  const ACTING := A.Cycle(DRY_RUN, false, true, true)

  const JOB := A.EventId(0, A.DEPOSIT_DETECTED)

  /** A reconciliation finds a deposit and queues its job, and a worker takes it. */
  const TRIGGERED := [ReconcileAccount("acc", LISTED, PAID_IN, true), Work(JOB, ACTING, 0, A.NoFault, false)]

  lemma DepositReported()
    ensures Succeeds(START, LISTED, PAID_IN) && Reported(START, LISTED, PAID_IN) == [EventOf(L.Deposit("d", 0))]
  {
    hide EventTypeOf, ReadPages, NewEvents;
    var op := L.Deposit("d", 0);
    L.DepositIsEvent("d", 0);
    P.VisibleIsRead(START, LISTED, [op], 0);
    L.OneNewEvent(op);
  }

  lemma DepositQueued()
    ensures Queued(START, LISTED, PAID_IN) == Some(JOB) && RowOf(Try(START, LISTED, PAID_IN)).Some?
    ensures RowOf(Try(START, LISTED, PAID_IN)).value.id == 0
  {
    hide EventTypeOf, ReadLog, Commits, Reconcile;
    var op := L.Deposit("d", 0);
    L.DepositIsEvent("d", 0);
    DepositReported();
    L.RowTells(START, ReadLog(START, LISTED, [op], 0).value, {MANUAL}, 0);
    TryKeepsRow(START, LISTED, PAID_IN);
    assert EventOf(op) in [EventOf(op)] && IsDeposit(EventOf(op));
  }

  lemma OneReconciled()
    ensures var w := E.Run(NOTHING, TRIGGERED[..1]);
            w.queue == {JOB} && w.runs == A.NONE && OfAccount(w, JOB, "acc")
  {
    hide Try, Queued, RowOf;
    DepositQueued();
    assert TRIGGERED[..1][..0] == [] && E.Run(NOTHING, []) == NOTHING;
    assert LedgerOf(NOTHING, "acc") == START;
  }

  /** So one cycle of an account and trigger, which is the most there is, does enter the pipeline. */
  lemma DepositStartsItsCycle()
    ensures Cycles(TRIGGERED, "acc", A.DEPOSIT_DETECTED) == 1
  {
    hide E.Run, OfAccount;
    OneReconciled();
    assert A.Script(ACTING)[2] == A.MarkedRunning;
    assert Cycles(TRIGGERED[..1], "acc", A.DEPOSIT_DETECTED) == 0 by {
      assert TRIGGERED[..1][..0] == [] && Cycles([], "acc", A.DEPOSIT_DETECTED) == 0;
    }
  }
}
