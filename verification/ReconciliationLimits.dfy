/** Where reconciliation promises less than it seems to, and exactly how much it does promise there. */
module ReconciliationLimits {
  import opened Wrappers
  import opened Operations
  import opened Reconciliation
  import opened ReconciliationEvents
  import opened ReconciliationProperties
  import opened ReconciliationRetry

  // ------------------------------------------------------------- the first sync

  ghost predicate MarkIn(window: seq<Operation>, mark: Fingerprint) {
    exists op :: op in window && EventTypeOf(op).Some? && EventOf(op).fingerprint == mark
  }

  lemma CreatedMarks(l: Ledger, reading: Reading, reasons: set<Reason>, mark: Fingerprint)
    requires mark.OfOperation?
    ensures Recorded(CreatedBy(l, reading, reasons), mark) ==> MarkIn(reading.operations, mark)
  {
    var created := NewEvents(l.events, reading.operations);
    NewEventsAreNew(l.events, reading.operations);
    if Recorded(created, mark) {
      var i :| 0 <= i < |created| && created[i].fingerprint == mark;
      assert IsNew(l.events, reading.operations, created[i]);
    }
  }

  /** After a success, an operation's event is stored exactly if it was before or the operation was read. */
  lemma SuccessMarks(l: Ledger, settings: Settings, a: Attempt, mark: Fingerprint)
    requires l.cursor.None? && Succeeds(l, settings, a) && mark.OfOperation?
    ensures Recorded(Try(l, settings, a).events, mark)
       <==> Recorded(l.events, mark) || MarkIn(Visible(l, settings, a.log, a.now), mark)
  {
    hide Try, Visible, Creates, Succeeds, CreatedBy;
    var stored, moved := TryEffect(l, settings, a);
    var seen, created := Visible(l, settings, a.log, a.now), Creates(l, settings, a);
    assert created[..|created|] == created;
    AttemptMarks(l, settings, a, mark);
    MovedRecordsAll(l, Reading(seen, None), a.reasons);
    RecordedAppend(l.events, created, mark);
    assert CreatedBy(l, Reading(seen, None), a.reasons) == Creates(l, settings, a) by { AsCreated(l, settings, a); }
    if MarkIn(seen, mark) {
      var op :| op in seen && EventTypeOf(op).Some? && EventOf(op).fingerprint == mark;
      assert !Missing(l.events + created, op);
    }
  }

  lemma AsCreated(l: Ledger, settings: Settings, a: Attempt)
    ensures CreatedBy(l, Reading(Visible(l, settings, a.log, a.now), None), a.reasons) == Creates(l, settings, a)
  {
  }

  lemma AttemptMarks(l: Ledger, settings: Settings, a: Attempt, mark: Fingerprint)
    requires l.cursor.None? && mark.OfOperation?
    ensures Recorded(Try(l, settings, a).events, mark) ==>
              Recorded(l.events, mark) || MarkIn(Visible(l, settings, a.log, a.now), mark)
  {
    hide Try, Visible, CreatedBy;
    var stored, moved := TryEffect(l, settings, a);
    var created := Creates(l, settings, a);
    RecordedAppend(l.events, created[..stored], mark);
    RecordedAppend(created[..stored], created[stored..], mark);
    assert created == created[..stored] + created[stored..];
    CreatedMarks(l, Reading(Visible(l, settings, a.log, a.now), None), a.reasons, mark);
  }

  /** Every operation event stored by the attempts so far is one that the last attempt reads, or an older one. */
  ghost predicate NothingOutside(base: Ledger, l: Ledger, window: seq<Operation>) {
    forall mark: Fingerprint :: mark.OfOperation? && Recorded(l.events, mark) ==>
                                  Recorded(base.events, mark) || MarkIn(window, mark)
  }

  ghost predicate SameOperationEvents(d: Ledger, e: Ledger) {
    forall mark: Fingerprint :: mark.OfOperation? ==> (Recorded(d.events, mark) <==> Recorded(e.events, mark))
  }

  /** Every event that operations of `seen` call for is one a clean run leaves. */
  ghost predicate SeesNothingOutside(base: Ledger, seen: seq<Operation>, window: seq<Operation>) {
    forall mark: Fingerprint :: mark.OfOperation? && MarkIn(seen, mark) ==>
                                  Recorded(base.events, mark) || MarkIn(window, mark)
  }

  /** Until the first time is stored, what is stored then is covered from the start of every later first window. */
  lemma {:induction false} CoveredFromLast(base: Ledger, settings: Settings, attempts: seq<Attempt>, last: Attempt)
    requires base.cursor.None? && base.lastTime.None? && settings.broker.Dated? && NoLaterThan(attempts, last)
    ensures var l := Run(base, settings, attempts);
            l.lastTime.Some? ==> Covered(l.events, last.log, last.now - settings.lookback, l.lastTime.value)
  {
    hide Try, SortedByDate;
    if attempts != [] {
      var init, a := attempts[..|attempts| - 1], attempts[|attempts| - 1];
      assert a in attempts;
      CoveredFromLast(base, settings, init, last);
      CursorStaysClear(base, settings, init);
      var d := Run(base, settings, init);
      TryCovers(d, settings, a, last.log,
                if d.lastTime.None? then WindowStart(d, settings, a.now) else last.now - settings.lookback);
    }
  }

  /** Whatever a clean run reads, the attempts have recorded or the last one reads too. */
  lemma WindowReached(base: Ledger, settings: Settings, attempts: seq<Attempt>, last: Attempt, op: Operation)
    requires base.cursor.None? && NoLaterThan(attempts, last)
    requires op in Visible(base, settings, last.log, last.now)
    ensures var l := Run(base, settings, attempts);
            !Missing(l.events, op) || op in Visible(l, settings, last.log, last.now)
  {
    hide Try, Missing, Run, SortedByDate;
    var l := Run(base, settings, attempts);
    if settings.broker.Dated? {
      BetweenMembers(last.log, WindowStart(base, settings, last.now), last.now);
      BetweenMembers(last.log, WindowStart(l, settings, last.now), last.now);
      if base.lastTime.None? {
        CoveredFromLast(base, settings, attempts, last);
      } else {
        var _ := RunOnTheWay(base, settings, attempts, last);
      }
    }
  }

  /**
   * Retrying from any state, over attempts that succeeded, failed or crashed at any commit: it never loses an event
   * that a clean run has. And it agrees with the clean run exactly if the attempts stored no event from outside the
   * clean run's window, and the last one reads none there.
   *
   * Once a time is stored both conditions hold (`ExactlyOnce`). Before that each attempt computes its window from the
   * clock, so what an attempt stored, or the time it stored as it crashed, may lie before the clean run's window.
   */
  lemma FirstSync(base: Ledger, settings: Settings, attempts: seq<Attempt>, last: Attempt)
    requires base.cursor.None? && NoLaterThan(attempts, last)
    requires Succeeds(Run(base, settings, attempts), settings, last) && Succeeds(base, settings, last)
    ensures var l, clean := Run(base, settings, attempts), Try(base, settings, last);
            var retried, window := Try(l, settings, last), Visible(base, settings, last.log, last.now);
            && (forall mark: Fingerprint :: mark.OfOperation? && Recorded(clean.events, mark) ==> Recorded(retried.events, mark))
            && (SameOperationEvents(retried, clean) <==>
                  && NothingOutside(base, l, window)
                  && SeesNothingOutside(base, Visible(l, settings, last.log, last.now), window))
  {
    hide Try, Succeeds, Visible, NoLaterThan, MarkIn;
    var l, clean := Run(base, settings, attempts), Try(base, settings, last);
    var retried, window := Try(l, settings, last), Visible(base, settings, last.log, last.now);
    CursorStaysClear(base, settings, attempts);
    EventsOnlyGrow(base, settings, attempts);
    forall mark: Fingerprint | mark.OfOperation?
      ensures Recorded(clean.events, mark) <==> Recorded(base.events, mark) || MarkIn(window, mark)
      ensures Recorded(retried.events, mark) <==>
                Recorded(l.events, mark) || MarkIn(Visible(l, settings, last.log, last.now), mark)
      ensures Recorded(clean.events, mark) ==> Recorded(retried.events, mark)
    {
      SuccessMarks(base, settings, last, mark);
      SuccessMarks(l, settings, last, mark);
      RecordedAppend(base.events, l.events[|base.events|..], mark);
      assert l.events == base.events + l.events[|base.events|..];
      CleanMarkReached(base, settings, attempts, last, mark);
    }
  }

  lemma CleanMarkReached(base: Ledger, settings: Settings, attempts: seq<Attempt>, last: Attempt, mark: Fingerprint)
    requires base.cursor.None? && NoLaterThan(attempts, last)
    ensures var l := Run(base, settings, attempts);
            MarkIn(Visible(base, settings, last.log, last.now), mark) ==>
              Recorded(l.events, mark) || MarkIn(Visible(l, settings, last.log, last.now), mark)
  {
    hide Run, Visible, NoLaterThan;
    var window := Visible(base, settings, last.log, last.now);
    if MarkIn(window, mark) {
      var op :| op in window && EventTypeOf(op).Some? && EventOf(op).fingerprint == mark;
      WindowReached(base, settings, attempts, last, op);
    }
  }

  // ------------------------------------------------------------- what is missed for good

  ghost predicate DistinctIds(log: seq<Operation>) {
    forall x, y :: x in log && y in log && x.id == y.id ==> x == y
  }

  /** An operation that was not read leaves no mark. */
  lemma UnreadUnmarked(log: seq<Operation>, seen: seq<Operation>, op: Operation)
    requires DistinctIds(log) && op in log && EventTypeOf(op).Some? && forall x :: x in seen ==> x in log
    ensures MarkIn(seen, EventOf(op).fingerprint) <==> op in seen
  {
  }

  /**
   * Once a dated broker's time is stored, an operation dated before it whose event is missing is missed for good: no
   * later attempt on the log, as far as it has grown by then, stores the event.
   */
  lemma {:induction false} MissedForGood(l: Ledger, settings: Settings, attempts: seq<Attempt>, log: seq<Operation>,
                                         op: Operation)
    requires l.cursor.None? && settings.broker.Dated? && l.lastTime.Some? && DistinctIds(log)
    requires op in log && op.date < l.lastTime.value && Missing(l.events, op)
    requires forall a :: a in attempts ==> a.log <= log
    ensures Missing(Run(l, settings, attempts).events, op)
  {
    hide Try, EventTypeOf;
    if attempts != [] {
      var init, a := attempts[..|attempts| - 1], attempts[|attempts| - 1];
      assert a in attempts;
      MissedForGood(l, settings, init, log, op);
      CursorStaysClear(l, settings, init);
      TimeNeverBack(l, settings, init);
      var d := Run(l, settings, init);
      AttemptMarks(d, settings, a, EventOf(op).fingerprint);
      BetweenMembers(a.log, d.lastTime.value, a.now);
      UnreadUnmarked(log, Visible(d, settings, a.log, a.now), op);
    }
  }

  /** The attempt that stores a time has stored all it read. */
  lemma TimeStoredMarks(l: Ledger, settings: Settings, a: Attempt, mark: Fingerprint)
    requires l.cursor.None? && l.lastTime.None? && Try(l, settings, a).lastTime.Some? && mark.OfOperation?
    ensures var e, seen := Try(l, settings, a), Visible(l, settings, a.log, a.now);
            && (Recorded(e.events, mark) <==> Recorded(l.events, mark) || MarkIn(seen, mark))
            && exists op :: op in seen && op.date == e.lastTime.value
  {
    hide Try, Visible, CreatedBy, Latest;
    var stored, moved := TryEffect(l, settings, a);
    var seen, created := Visible(l, settings, a.log, a.now), Creates(l, settings, a);
    assert created[..|created|] == created;
    AttemptMarks(l, settings, a, mark);
    MovedRecordsAll(l, Reading(seen, None), a.reasons);
    RecordedAppend(l.events, created, mark);
    LatestIsMax(seen);
    if MarkIn(seen, mark) {
      var op :| op in seen && EventTypeOf(op).Some? && EventOf(op).fingerprint == mark;
      assert !Missing(l.events + created, op);
    }
  }

  /**
   * Coverage of a dated broker's log, exactly. Let an attempt, whether or not it then fails, store the first time. An
   * operation that calls for an event and is dated before that time has its event, then and after all later attempts,
   * if and only if it was stored before or is dated from the start of that attempt's window on.
   */
  lemma CoveredExactly(l: Ledger, settings: Settings, a: Attempt, later: seq<Attempt>, log: seq<Operation>, op: Operation)
    requires l.cursor.None? && l.lastTime.None? && settings.broker.Dated? && Try(l, settings, a).lastTime.Some?
    requires SortedByDate(log) && DistinctIds(log) && a.log <= log && forall x :: x in later ==> x.log <= log
    requires op in log && EventTypeOf(op).Some? && op.date < Try(l, settings, a).lastTime.value
    ensures var mark := EventOf(op).fingerprint;
            Recorded(Run(Try(l, settings, a), settings, later).events, mark)
            <==> Recorded(l.events, mark) || WindowStart(l, settings, a.now) <= op.date
  {
    hide Try, EventTypeOf, SortedByDate, MarkIn, WindowStart;
    var e, mark, seen := Try(l, settings, a), EventOf(op).fingerprint, Visible(l, settings, a.log, a.now);
    var _, _ := TryEffect(l, settings, a);
    TimeStoredMarks(l, settings, a, mark);
    BetweenMembers(a.log, WindowStart(l, settings, a.now), a.now);
    var newest :| newest in seen && newest.date == e.lastTime.value;
    BeforeNewest(log, a.log, op, newest);
    UnreadUnmarked(log, seen, op);
    var f := Run(e, settings, later);
    if Recorded(e.events, mark) {
      EventsOnlyGrow(e, settings, later);
      RecordedAppend(e.events, f.events[|e.events|..], mark);
      assert f.events == e.events + f.events[|e.events|..];
    } else {
      MissedForGood(e, settings, later, log, op);
    }
  }

  // ------------------------------------------------------------- two histories

  const DAY_BACK := Settings(Dated, 10, 1)

  const START := NewLedger("acc")

  function Deposit(id: string, date: int): Operation {
    Operation(id, "OPERATION_TYPE_INPUT", "EXECUTED", 100.0, date)
  }

  lemma DepositIsEvent(id: string, date: int)
    ensures EventTypeOf(Deposit(id, date)) == Some(DEPOSIT_DETECTED)
  {
  }

  /** A deposit ten time units old, stored by an attempt that crashed before the cursor; then a retry one unit later. */
  const CRASHED := Attempt([Deposit("d", 0)], 10, true, {MANUAL}, Crash(3))

  const RETRIED := Attempt([Deposit("d", 0)], 11, true, {MANUAL}, NoFault)

  lemma ReadsBetween(l: Ledger, log: seq<Operation>, now: int)
    requires l.cursor.None? && |log| <= PAGE
    ensures ReadLog(l, DAY_BACK, log, now)
         == Some(Reading(Between(log, WindowStart(l, DAY_BACK, now), now), None))
  {
    VisibleIsRead(l, DAY_BACK, log, now);
    BetweenShorter(log, WindowStart(l, DAY_BACK, now), now);
  }

  lemma {:induction false} BetweenShorter(log: seq<Operation>, from: int, to: int)
    ensures |Between(log, from, to)| <= |log|
  {
    if log != [] {
      BetweenShorter(log[..|log| - 1], from, to);
    }
  }

  lemma OneBetween(op: Operation, from: int, to: int)
    ensures Between([op], from, to) == if from <= op.date <= to then [op] else []
  {
    assert [op][..0] == [] && Between([], from, to) == [];
  }

  lemma OneNewEvent(op: Operation)
    ensures NewEvents([], [op]) == if EventTypeOf(op).Some? then [EventOf(op)] else []
  {
    assert [op][..0] == [] && NewEvents([], []) == [];
    if EventTypeOf(op).Some? {
      assert [] + NewEvents([], []) == [] && !Recorded([], EventOf(op).fingerprint);
    }
  }

  /** The retry leaves the deposit's event in the ledger; a clean run at the same moment would not have stored it. */
  lemma FirstSyncCanDiffer()
    ensures var mark := EventOf(Deposit("d", 0)).fingerprint;
            && Recorded(Try(Try(START, DAY_BACK, CRASHED), DAY_BACK, RETRIED).events, mark)
            && !Recorded(Try(START, DAY_BACK, RETRIED).events, mark)
  {
    hide EventTypeOf, Try, ReadLog, Visible, Creates, Commits;
    var op, mark := Deposit("d", 0), OfOperation("d", DEPOSIT_DETECTED);
    DepositIsEvent("d", 0);
    ReadsBetween(START, [op], 10);
    ReadsBetween(START, [op], 11);
    OneBetween(op, 0, 10);
    OneBetween(op, 1, 11);
    CrashKeepsDeposit();
    var l := Try(START, DAY_BACK, CRASHED);
    var _, _ := TryEffect(l, DAY_BACK, RETRIED);
    RecordedAppend(l.events, Try(l, DAY_BACK, RETRIED).events[|l.events|..], mark);
    CleanMisses(op, mark);
  }

  lemma CrashKeepsDeposit()
    ensures var l := Try(START, DAY_BACK, CRASHED); l.cursor.None? && Recorded(l.events, OfOperation("d", DEPOSIT_DETECTED))
  {
    hide EventTypeOf, ReadLog, Commits, Reconcile;
    var op := Deposit("d", 0);
    DepositIsEvent("d", 0);
    ReadsBetween(START, [op], 10);
    OneBetween(op, 0, 10);
    OneNewEvent(op);
    var reading := Reading([op], None);
    ReconcileEffect(START, reading, {MANUAL}, Crash(3));
    assert Commits(START, reading, {MANUAL})[0..] == Commits(START, reading, {MANUAL});
    FiveCommits(START, reading);
    assert StoredBy(START, reading, {MANUAL}, 3) == 1;
    assert ([] + CreatedBy(START, reading, {MANUAL})[..1])[0] == EventOf(op);
  }

  lemma FiveCommits(l: Ledger, reading: Reading)
    requires RowOf(l).None? && |CreatedBy(l, reading, {MANUAL})| == 1
    ensures |Commits(l, reading, {MANUAL})| == 5
  {
    hide CreatedBy;
  }

  lemma CleanMisses(op: Operation, mark: Fingerprint)
    requires op == Deposit("d", 0) && mark == OfOperation("d", DEPOSIT_DETECTED)
    ensures !Recorded(Try(START, DAY_BACK, RETRIED).events, mark)
  {
    hide Try;
    OneBetween(op, 1, 11);
    AttemptMarks(START, DAY_BACK, RETRIED, mark);
    assert !Recorded(START.events, mark) && !MarkIn([], mark);
  }

  /** A sync that finds nothing, and then one a long time later that finds two deposits in the log. */
  const QUIET := Attempt([], 0, true, {MANUAL}, NoFault)

  const LATE := Attempt([Deposit("early", 5), Deposit("late", 95)], 100, true, {MANUAL}, NoFault)

  lemma QuietThenLate()
    ensures var l := Try(START, DAY_BACK, QUIET); l.cursor.None? && l.lastTime.None? && Succeeds(START, DAY_BACK, QUIET)
    ensures var e := Try(Try(START, DAY_BACK, QUIET), DAY_BACK, LATE);
            e.cursor.None? && e.lastTime == Some(95) && Missing(e.events, Deposit("early", 5))
  {
    hide EventTypeOf, Try, Creates;
    DepositIsEvent("early", 5);
    var l := Try(START, DAY_BACK, QUIET);
    ReadsBetween(START, [], 0);
    assert Succeeds(START, DAY_BACK, QUIET);
    SuccessTime(START, DAY_BACK, QUIET);
    var _, _ := TryEffect(START, DAY_BACK, QUIET);
    var mark := OfOperation("early", DEPOSIT_DETECTED);
    AttemptMarks(START, DAY_BACK, QUIET, mark);
    assert !Recorded(START.events, mark) && !MarkIn([], mark);
    ReadsBetween(l, LATE.log, 100);
    SuccessTime(l, DAY_BACK, LATE);
    LateWindow();
    var _, _ := TryEffect(l, DAY_BACK, LATE);
    AttemptMarks(l, DAY_BACK, LATE, mark);
    assert !MarkIn([Deposit("late", 95)], mark) by { assert "early" != "late"; }
  }

  /**
   * A success that finds no operation stores no time. So an operation made after it is missed if the next sync comes
   * later than the lookback, and, whatever is attempted then on the log as it grows, for good.
   */
  lemma QuietAccountGap(log: seq<Operation>, later: seq<Attempt>)
    requires LATE.log <= log && DistinctIds(log) && forall a :: a in later ==> a.log <= log
    ensures Succeeds(START, DAY_BACK, QUIET) && Succeeds(Try(START, DAY_BACK, QUIET), DAY_BACK, LATE)
    ensures var e := Run(Try(Try(START, DAY_BACK, QUIET), DAY_BACK, LATE), DAY_BACK, later);
            Missing(e.events, Deposit("early", 5))
  {
    hide EventTypeOf, Try, Run, Missing;
    QuietThenLate();
    ReadsBetween(Try(START, DAY_BACK, QUIET), LATE.log, 100);
    assert log[0] == Deposit("early", 5);
    MissedForGood(Try(Try(START, DAY_BACK, QUIET), DAY_BACK, LATE), DAY_BACK, later, log, Deposit("early", 5));
  }

  lemma LateWindow()
    ensures Between(LATE.log, 90, 100) == [Deposit("late", 95)] && Latest([Deposit("late", 95)]) == Some(95)
  {
    var early, late := Deposit("early", 5), Deposit("late", 95);
    assert LATE.log[..1] == [early];
    OneBetween(early, 90, 100);
    assert [late][..0] == [] && Latest([]) == None;
  }

  // ------------------------------------------------------------- a window too long to read

  /** While the window start stands, a window only gets longer. */
  lemma VisibleGrows(l: Ledger, settings: Settings, log: seq<Operation>, now: int, a: Attempt)
    requires WindowFixed(l, settings) && log <= a.log && now <= a.now && SortedByDate(a.log)
    ensures |Visible(l, settings, log, now)| <= |Visible(l, settings, a.log, a.now)|
  {
    if settings.broker.Dated? {
      BetweenPrefix(log, a.log, l.lastTime.value, now, a.now);
    }
  }

  /**
   * A finished reading clears the cursor, so the next one starts over: the listing broker from the start of its
   * list, a dated one from the stored time. Once more operations lie there than the page bound covers, no later
   * attempt ever succeeds or stores anything.
   */
  lemma {:induction false} TooLongForever(l: Ledger, settings: Settings, log: seq<Operation>, now: int, attempts: seq<Attempt>)
    requires l.cursor.None? && WindowFixed(l, settings)
    requires |Visible(l, settings, log, now)| > settings.maxPages * PAGE
    requires forall a :: a in attempts ==> log <= a.log && now <= a.now && SortedByDate(a.log)
    ensures var e := Run(l, settings, attempts);
            && e.cursor.None? && e.events == l.events && e.lastTime == l.lastTime
            && forall a :: a in attempts ==> !Succeeds(e, settings, a)
  {
    hide Reconcile, ReadLog, Between, SortedByDate;
    if attempts != [] {
      var init, last := attempts[..|attempts| - 1], attempts[|attempts| - 1];
      TooLongForever(l, settings, log, now, init);
      assert last in attempts;
      var d := Run(l, settings, init);
      VisibleIsRead(d, settings, last.log, last.now);
      VisibleGrows(d, settings, log, now, last);
      UnreadableEffect(d, last.reasons, last.fault);
    }
    var e := Run(l, settings, attempts);
    forall a | a in attempts ensures !Succeeds(e, settings, a) {
      VisibleIsRead(e, settings, a.log, a.now);
      VisibleGrows(e, settings, log, now, a);
    }
  }

  // ------------------------------------------------------------- reporting

  /**
   * An event is among the results of the one attempt that stored it, and of no other. So a deposit whose event
   * was stored by an attempt that failed afterwards is never reported by a success, which is what triggers its cycle.
   */
  lemma ReportedOnlyOnce(l: Ledger, settings: Settings, failed: Attempt, between: seq<Attempt>, later: Attempt, mark: Fingerprint)
    requires l.cursor.None? && Recorded(Try(l, settings, failed).events, mark)
    ensures var e := Run(Try(l, settings, failed), settings, between); !Recorded(Creates(e, settings, later), mark)
  {
    hide Try, CreatedBy;
    var d := Try(l, settings, failed);
    var _, _ := TryEffect(l, settings, failed);
    EventsOnlyGrow(d, settings, between);
    var e := Run(d, settings, between);
    RecordedAppend(d.events, e.events[|d.events|..], mark);
    assert e.events == d.events + e.events[|d.events|..];
    CreatedIsNew(e, Reading(Visible(e, settings, later.log, later.now), None), later.reasons);
    var created := Creates(e, settings, later);
    forall i | 0 <= i < |created| ensures created[i].fingerprint != mark {
      assert created[i] in created;
    }
  }

  // ------------------------------------------------------------- the reconciliation row

  /** Only its first and last commits touch the row and only one takes a snapshot. */
  lemma {:induction false} RowProgress(l: Ledger, reading: Reading, reasons: set<Reason>, n: nat)
    requires n <= |Commits(l, reading, reasons)|
    ensures var e, all := ApplyAll(l, Commits(l, reading, reasons)[..n]), |Commits(l, reading, reasons)|;
            var begun := if RowOf(l).None? then Some(Row(l.nextRow, reasons, RUNNING, 0, 0)) else RowOf(l);
            && e.account == l.account
            && RowOf(e) == (if n < |Opening(l, reasons)| then RowOf(l)
                            else if n < all then begun
                            else Some(begun.value.(status := SUCCEEDED, operations := |reading.operations|,
                                                    events := |CreatedBy(l, reading, reasons)|)))
            && e.snapshots == l.snapshots + if n > |Opening(l, reasons)| then 1 else 0
  {
    hide CreatedBy;
    var commits := Commits(l, reading, reasons);
    if n > 0 {
      RowProgress(l, reading, reasons, n - 1);
      CommitAt(l, reading, reasons, n - 1);
      assert commits[..n][..n - 1] == commits[..n - 1];
    }
  }

  /**
   * A success is recorded with what it read and created. But a later run reuses the row without reopening it: its
   * reasons are never stored, and if it crashes the row still tells of the run before.
   */
  lemma RowTells(l: Ledger, reading: Reading, reasons: set<Reason>, n: nat)
    ensures var e := Reconcile(l, Some(reading), reasons, NoFault);
            && RowOf(e).Some? && RowOf(e).value.status == SUCCEEDED && RowOf(e).value.operations == |reading.operations|
            && RowOf(e).value.events == |e.events| - |l.events|
            && RowOf(e).value.reasons == (if RowOf(l).Some? then RowOf(l).value.reasons else reasons)
    ensures RowOf(l).Some? && n < |Commits(l, reading, reasons)| ==>
              RowOf(Reconcile(l, Some(reading), reasons, Crash(n))) == RowOf(l)
  {
    hide CreatedBy, ApplyAll, Commits;
    var commits := Commits(l, reading, reasons);
    RowProgress(l, reading, reasons, |commits|);
    Progress(l, reading, reasons, |commits|);
    LastIsFinish(l, reading, reasons);
    assert commits[..|commits|] == commits;
    if n < |commits| {
      RowProgress(l, reading, reasons, n);
    }
  }

  lemma LastIsFinish(l: Ledger, reading: Reading, reasons: set<Reason>)
    ensures |Commits(l, reading, reasons)| == |Opening(l, reasons)| + 1 + |CreatedBy(l, reading, reasons)| + 2
  {
    hide CreatedBy;
  }
}
