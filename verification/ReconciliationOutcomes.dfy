/** What a successful reconciliation stores, in terms of the broker's log, the clock and the stored rows alone. */
module ReconciliationOutcomes {
  import opened Wrappers
  import opened Operations
  import opened Reconciliation
  import opened ReconciliationEvents
  import opened ReconciliationProperties
  import L = ReconciliationLimits

  /** The kinds of operations that are events, and the types of these; only executed operations count. */
  predicate Means(op: Operation, eventType: EventType) {
    && (op.state == "OPERATION_STATE_EXECUTED" || op.state == "EXECUTED")
    && match eventType
       case DEPOSIT_DETECTED =>
         || op.kind == "OPERATION_TYPE_INPUT" || op.kind == "OPERATION_TYPE_INPUT_ACQUIRING"
         || op.kind == "OPERATION_TYPE_INP_MULTI" || op.kind == "OPERATION_TYPE_INPUT_SWIFT"
       case WITHDRAWAL_DETECTED =>
         || op.kind == "OPERATION_TYPE_OUTPUT" || op.kind == "OPERATION_TYPE_OUTPUT_ACQUIRING"
         || op.kind == "OPERATION_TYPE_OUT_MULTI" || op.kind == "OPERATION_TYPE_OUTPUT_SWIFT"
       case ORDER_EXECUTION_DETECTED => op.kind == "OPERATION_TYPE_BUY" || op.kind == "OPERATION_TYPE_SELL"
       case ACCOUNT_CHANGE => false
  }

  /** An event with this fingerprint is stored. */
  predicate IsStored(events: seq<AccountEvent>, mark: Fingerprint) {
    exists i :: 0 <= i < |events| && events[i].fingerprint == mark
  }

  /** The operation lies in the window of the attempt: with a dated broker from the stored time, or the lookback, to now. */
  predicate InWindow(l: Ledger, settings: Settings, a: Attempt, op: Operation) {
    && op in a.log
    && (settings.broker == Dated ==>
          (match l.lastTime case Some(t) => t <= op.date case None => a.now - settings.lookback <= op.date) && op.date <= a.now)
  }

  lemma MeansExactly(op: Operation, eventType: EventType)
    ensures Means(op, eventType) <==> EventTypeOf(op) == Some(eventType)
  {
    ClassificationUnambiguous(op);
  }

  lemma WindowIs(l: Ledger, settings: Settings, a: Attempt, op: Operation)
    ensures op in Visible(l, settings, a.log, a.now) <==> InWindow(l, settings, a, op)
  {
    BetweenMembers(a.log, WindowStart(l, settings, a.now), a.now);
  }

  // ------------------------------------------------------------- when it succeeds

  /** How many operations of the log lie in the window. */
  function WindowSize(l: Ledger, settings: Settings, a: Attempt): nat {
    |set i | 0 <= i < |a.log| && InWindow(l, settings, a, a.log[i])|
  }

  lemma {:induction false} BetweenCounts(log: seq<Operation>, from: int, to: int)
    ensures |Between(log, from, to)| == |set i | 0 <= i < |log| && from <= log[i].date <= to|
  {
    var all := set i | 0 <= i < |log| && from <= log[i].date <= to;
    if log != [] {
      var n := |log| - 1;
      BetweenCounts(log[..n], from, to);
      var before := set i | 0 <= i < |log[..n]| && from <= log[..n][i].date <= to;
      assert all == if from <= log[n].date <= to then before + {n} else before;
    }
  }

  lemma {:induction false} AllCounted(log: seq<Operation>)
    ensures |set i | 0 <= i < |log| && log[i] in log| == |log|
  {
    var all := set i | 0 <= i < |log| && log[i] in log;
    if log != [] {
      var n := |log| - 1;
      AllCounted(log[..n]);
      var before := set i | 0 <= i < |log[..n]| && log[..n][i] in log[..n];
      assert all == before + {n};
    }
  }

  lemma WindowCounts(l: Ledger, settings: Settings, a: Attempt)
    ensures |Visible(l, settings, a.log, a.now)| == WindowSize(l, settings, a)
  {
    var from := WindowStart(l, settings, a.now);
    var inside := set i | 0 <= i < |a.log| && InWindow(l, settings, a, a.log[i]);
    if settings.broker.Dated? {
      BetweenCounts(a.log, from, a.now);
      assert inside == set i | 0 <= i < |a.log| && from <= a.log[i].date <= a.now;
    } else {
      AllCounted(a.log);
      assert inside == set i | 0 <= i < |a.log| && a.log[i] in a.log;
    }
  }

  /** An attempt succeeds exactly if it meets no fault and reads its window from the broker within the page bound. */
  lemma SucceedsExactly(l: Ledger, settings: Settings, a: Attempt)
    requires l.cursor.None?
    ensures Succeeds(l, settings, a) <==>
              && a.reachable && a.fault.NoFault?
              && settings.maxPages > 0 && WindowSize(l, settings, a) <= settings.maxPages * 100
  {
    hide ReadLog, Visible;
    VisibleIsRead(l, settings, a.log, a.now);
    WindowCounts(l, settings, a);
  }

  // ------------------------------------------------------------- what it stores

  /** An operation of the window means an event that is not stored yet. */
  ghost predicate FindsNew(l: Ledger, settings: Settings, a: Attempt) {
    exists op, eventType :: InWindow(l, settings, a, op) && Means(op, eventType)
                            && !IsStored(l.events, OfOperation(op.id, eventType))
  }

  lemma MarkInWindow(l: Ledger, settings: Settings, a: Attempt, id: string, eventType: EventType)
    ensures L.MarkIn(Visible(l, settings, a.log, a.now), OfOperation(id, eventType)) <==>
              exists op :: InWindow(l, settings, a, op) && op.id == id && Means(op, eventType)
  {
    hide Visible, InWindow, Means, EventTypeOf;
    var seen, mark := Visible(l, settings, a.log, a.now), OfOperation(id, eventType);
    if L.MarkIn(seen, mark) {
      var op :| op in seen && EventTypeOf(op).Some? && EventOf(op).fingerprint == mark;
      WindowIs(l, settings, a, op);
      MeansExactly(op, eventType);
    }
    if exists op :: InWindow(l, settings, a, op) && op.id == id && Means(op, eventType) {
      var op :| InWindow(l, settings, a, op) && op.id == id && Means(op, eventType);
      WindowIs(l, settings, a, op);
      MeansExactly(op, eventType);
      assert EventOf(op).fingerprint == mark;
    }
  }

  /**
   * After a success an operation's event of some type is stored exactly if it was before, or an operation of the window
   * with this id means it: an executed one, of a kind of that type.
   */
  lemma RecordsExactly(l: Ledger, settings: Settings, a: Attempt, id: string, eventType: EventType)
    requires l.cursor.None? && Succeeds(l, settings, a)
    ensures IsStored(Try(l, settings, a).events, OfOperation(id, eventType)) <==>
              || IsStored(l.events, OfOperation(id, eventType))
              || exists op :: InWindow(l, settings, a, op) && op.id == id && Means(op, eventType)
  {
    hide Try, Succeeds, InWindow, Means, L.MarkIn;
    L.SuccessMarks(l, settings, a, OfOperation(id, eventType));
    MarkInWindow(l, settings, a, id, eventType);
  }

  lemma CreatesNone(l: Ledger, settings: Settings, a: Attempt)
    ensures NewEvents(l.events, Visible(l, settings, a.log, a.now)) == [] <==> !FindsNew(l, settings, a)
  {
    hide Visible, InWindow, Means, EventTypeOf;
    var seen := Visible(l, settings, a.log, a.now);
    var created := NewEvents(l.events, seen);
    NewEventsAreNew(l.events, seen);
    NewEventsRecord(l.events, seen);
    if created != [] {
      assert IsNew(l.events, seen, created[0]);
      var op :| op in seen && Missing(l.events, op) && created[0] == EventOf(op);
      WindowIs(l, settings, a, op);
      MeansExactly(op, EventTypeOf(op).value);
      assert !IsStored(l.events, OfOperation(op.id, EventTypeOf(op).value));
    }
    if FindsNew(l, settings, a) {
      var op, eventType :| InWindow(l, settings, a, op) && Means(op, eventType)
                           && !IsStored(l.events, OfOperation(op.id, eventType));
      WindowIs(l, settings, a, op);
      MeansExactly(op, eventType);
      assert Missing(l.events, op);
      assert !Missing(l.events + created, op);
      assert l.events + [] == l.events;
    }
  }

  /**
   * And the account-change event is stored exactly if it was before, or the attempt has a reason and finds no operation
   * that means a new event.
   */
  lemma ChangeRecordedExactly(l: Ledger, settings: Settings, a: Attempt)
    requires l.cursor.None? && Succeeds(l, settings, a)
    ensures var mark := OfChange(JobCorrelation(l.account));
            IsStored(Try(l, settings, a).events, mark) <==>
              IsStored(l.events, mark) || (a.reasons != {} && !FindsNew(l, settings, a))
  {
    hide Try, Succeeds, Visible, NewEvents, FindsNew;
    var stored, moved := TryEffect(l, settings, a);
    var seen, created, mark := Visible(l, settings, a.log, a.now), Creates(l, settings, a), OfChange(JobCorrelation(l.account));
    assert created[..|created|] == created;
    RecordedAppend(l.events, created, mark);
    CreatesNone(l, settings, a);
    NewEventsAreNew(l.events, seen);
    ChangeAmong(l, seen, a.reasons, created);
  }

  lemma ChangeAmong(l: Ledger, seen: seq<Operation>, reasons: set<Reason>, created: seq<AccountEvent>)
    requires created == CreatedBy(l, Reading(seen, None), reasons)
    requires forall e :: e in NewEvents(l.events, seen) ==> IsNew(l.events, seen, e)
    ensures var mark := OfChange(JobCorrelation(l.account));
            Recorded(created, mark) <==>
              NewEvents(l.events, seen) == [] && reasons != {} && !Recorded(l.events, mark)
  {
    hide NewEvents;
    var mark, operations := OfChange(JobCorrelation(l.account)), NewEvents(l.events, seen);
    forall i | 0 <= i < |operations| ensures operations[i].fingerprint.OfOperation? {
      assert operations[i] in operations;
      assert IsNew(l.events, seen, operations[i]);
    }
    assert [ChangeOf(l.account)][0].fingerprint == mark;
  }

  /** The time stored is the latest of the window; an empty window leaves it, and the cursor is cleared. */
  lemma TimeExactly(l: Ledger, settings: Settings, a: Attempt)
    requires l.cursor.None? && Succeeds(l, settings, a)
    ensures var e := Try(l, settings, a);
            && e.cursor.None?
            && (if forall op :: op in a.log ==> !InWindow(l, settings, a, op) then e.lastTime == l.lastTime
                else
                  && e.lastTime.Some? && (forall op :: InWindow(l, settings, a, op) ==> op.date <= e.lastTime.value)
                  && exists op :: InWindow(l, settings, a, op) && op.date == e.lastTime.value)
  {
    hide Try, Succeeds, Visible, Creates, Latest, InWindow;
    var _, _ := TryEffect(l, settings, a);
    var seen, e := Visible(l, settings, a.log, a.now), Try(l, settings, a);
    LatestIsMax(seen);
    forall op ensures op in seen <==> InWindow(l, settings, a, op) {
      WindowIs(l, settings, a, op);
    }
    forall op | InWindow(l, settings, a, op) ensures op in a.log {
      InLog(l, settings, a, op);
    }
    if seen != [] {
      var newest :| newest in seen && newest.date == Latest(seen).value;
      assert InWindow(l, settings, a, newest);
    } else {
      assert Latest(seen).None?;
    }
  }

  lemma InLog(l: Ledger, settings: Settings, a: Attempt, op: Operation)
    requires InWindow(l, settings, a, op)
    ensures op in a.log
  {
  }
}
