/** Which job a reconciliation queues, in terms of the broker's log and the stored rows alone. */
module TriggerOutcomes {
  import opened Wrappers
  import opened Operations
  import opened Reconciliation
  import opened ReconciliationEvents
  import opened ReconciliationProperties
  import O = ReconciliationOutcomes
  import opened E = EventTriggers
  import A = Automation

  /** The window shows a deposit whose event is not stored yet. */
  ghost predicate NewDeposit(l: Ledger, settings: Settings, a: Attempt) {
    exists op :: O.InWindow(l, settings, a, op) && O.Means(op, EventType.DEPOSIT_DETECTED)
                 && !O.IsStored(l.events, OfOperation(op.id, EventType.DEPOSIT_DETECTED))
  }

  /** The reconciliation reports anything: an operation's new event, or a change of the account for the first time. */
  ghost predicate AnyNew(l: Ledger, settings: Settings, a: Attempt) {
    O.FindsNew(l, settings, a) || (a.reasons != {} && !O.IsStored(l.events, OfChange(JobCorrelation(l.account))))
  }

  lemma ReportedIs(l: Ledger, settings: Settings, a: Attempt)
    requires l.cursor.None?
    ensures Reported(l, settings, a) ==
              if Succeeds(l, settings, a) then
                CreatedBy(l, Reading(Visible(l, settings, a.log, a.now), None), a.reasons)
              else []
  {
    hide Visible, CreatedBy;
    VisibleIsRead(l, settings, a.log, a.now);
  }

  lemma CreatedNone(l: Ledger, settings: Settings, a: Attempt)
    ensures CreatedBy(l, Reading(Visible(l, settings, a.log, a.now), None), a.reasons) == [] <==> !AnyNew(l, settings, a)
  {
    hide Visible, NewEvents, O.FindsNew;
    O.CreatesNone(l, settings, a);
  }

  lemma DepositCreated(l: Ledger, settings: Settings, a: Attempt)
    ensures (exists e :: e in CreatedBy(l, Reading(Visible(l, settings, a.log, a.now), None), a.reasons) && IsDeposit(e))
       <==> NewDeposit(l, settings, a)
  {
    hide Visible, NewEvents, O.InWindow, O.Means, EventTypeOf;
    var seen := Visible(l, settings, a.log, a.now);
    var created, all := NewEvents(l.events, seen), CreatedBy(l, Reading(seen, None), a.reasons);
    NewEventsAreNew(l.events, seen);
    NewEventsRecord(l.events, seen);
    assert forall e :: e in all && IsDeposit(e) ==> e in created;
    if exists e :: e in created && IsDeposit(e) {
      var e :| e in created && IsDeposit(e);
      var op :| op in seen && Missing(l.events, op) && e == EventOf(op);
      O.WindowIs(l, settings, a, op);
      O.MeansExactly(op, EventType.DEPOSIT_DETECTED);
    }
    if NewDeposit(l, settings, a) {
      var op :| O.InWindow(l, settings, a, op) && O.Means(op, EventType.DEPOSIT_DETECTED)
                && !O.IsStored(l.events, OfOperation(op.id, EventType.DEPOSIT_DETECTED));
      O.WindowIs(l, settings, a, op);
      O.MeansExactly(op, EventType.DEPOSIT_DETECTED);
      var mark := EventOf(op).fingerprint;
      assert !Missing(l.events + created, op);
      RecordedAppend(l.events, created, mark);
      var i :| 0 <= i < |created| && created[i].fingerprint == mark;
      assert created[i] in all && IsDeposit(created[i]);
    }
  }

  lemma SuccessHasRow(l: Ledger, settings: Settings, a: Attempt)
    requires l.cursor.None? && Succeeds(l, settings, a)
    ensures RowOf(Try(l, settings, a)).Some?
  {
    hide ReadLog, Reconcile, RowOf;
    O.L.RowTells(l, ReadLog(l, settings, a.log, a.now).value, a.reasons, 0);
  }

  /**
   * The job queued, exactly: none unless the attempt succeeds and reports something new; a deposit's if a new deposit is
   * among it, an account change's otherwise; and named after the account's row.
   */
  lemma QueuedExactly(l: Ledger, settings: Settings, a: Attempt)
    requires l.cursor.None?
    ensures var row := RowOf(Try(l, settings, a));
            if Succeeds(l, settings, a) && AnyNew(l, settings, a) then
              && row.Some?
              && Queued(l, settings, a)
                 == Some(A.EventId(row.value.id, if NewDeposit(l, settings, a) then A.DEPOSIT_DETECTED else A.ACCOUNT_CHANGE))
            else Queued(l, settings, a).None?
  {
    hide Try, Visible, CreatedBy, Succeeds, AnyNew, NewDeposit, RowOf;
    ReportedIs(l, settings, a);
    CreatedNone(l, settings, a);
    DepositCreated(l, settings, a);
    if Succeeds(l, settings, a) {
      SuccessHasRow(l, settings, a);
    }
  }
}
