/** What the ledger guarantees over every history of successful, failed and crashed reconciliations. */
module ReconciliationProperties {
  import opened Wrappers
  import opened Operations
  import opened Reconciliation
  import opened ReconciliationEvents

  // ------------------------------------------------------------- windows of a dated log

  ghost predicate SortedByDate(log: seq<Operation>) {
    forall i, j :: 0 <= i < j < |log| ==> log[i].date <= log[j].date
  }

  lemma {:induction false} BetweenMembers(log: seq<Operation>, from: int, to: int)
    ensures forall op :: op in Between(log, from, to) <==> op in log && from <= op.date <= to
    ensures SortedByDate(log) ==> SortedByDate(Between(log, from, to))
  {
    if log != [] {
      SplitLast(log);
      BetweenMembers(log[..|log| - 1], from, to);
      if SortedByDate(log) {
        forall op | op in Between(log[..|log| - 1], from, to) ensures op.date <= log[|log| - 1].date {
          assert op in log[..|log| - 1];
        }
      }
    }
  }

  lemma {:induction false} BetweenLater(log: seq<Operation>, from: int, sooner: int, later: int)
    requires SortedByDate(log) && sooner <= later
    ensures Between(log, from, sooner) <= Between(log, from, later)
    ensures (forall op :: op in log ==> op.date <= sooner) ==> Between(log, from, sooner) == Between(log, from, later)
  {
    if log != [] {
      SplitLast(log);
      BetweenLater(log[..|log| - 1], from, sooner, later);
    }
  }

  /** A shorter, earlier view of a sorted log shows a prefix of what a longer, later one shows. */
  lemma {:induction false} BetweenPrefix(short: seq<Operation>, long: seq<Operation>, from: int, sooner: int, later: int)
    requires short <= long && SortedByDate(long) && sooner <= later
    ensures Between(short, from, sooner) <= Between(long, from, later)
    decreases |long|
  {
    if short == long {
      BetweenLater(long, from, sooner, later);
    } else {
      BetweenPrefix(short, long[..|long| - 1], from, sooner, later);
    }
  }

  lemma {:induction false} NoneBetween(log: seq<Operation>, from: int, to: int)
    requires forall op :: op in log ==> op.date < from
    ensures Between(log, from, to) == []
  {
    if log != [] {
      SplitLast(log);
      NoneBetween(log[..|log| - 1], from, to);
    }
  }

  lemma {:induction false} BetweenCut(log: seq<Operation>, from: int, cut: int, to: int)
    requires SortedByDate(log) && from <= cut
    ensures Between(log, from, to) == Between(log, from, if cut <= to then cut - 1 else to) + Between(log, cut, to)
  {
    if log != [] {
      var init, op := log[..|log| - 1], log[|log| - 1];
      SplitLast(log);
      BetweenCut(init, from, cut, to);
      if op.date < cut {
        NoneBetween(init, cut, to);
      }
    }
  }

  lemma {:induction false} LatestIsMax(operations: seq<Operation>)
    ensures Latest(operations).Some? <==> operations != []
    ensures operations != [] ==>
              && (exists op :: op in operations && op.date == Latest(operations).value)
              && forall op :: op in operations ==> op.date <= Latest(operations).value
  {
    if operations != [] {
      SplitLast(operations);
      LatestIsMax(operations[..|operations| - 1]);
      if Latest(operations) == Some(operations[|operations| - 1].date) {
        assert operations[|operations| - 1] in operations;
      }
    }
  }

  // ------------------------------------------------------------- one attempt

  lemma VisibleIsRead(l: Ledger, settings: Settings, log: seq<Operation>, now: int)
    requires l.cursor.None?
    ensures var r, visible := ReadLog(l, settings, log, now), Visible(l, settings, log, now);
            && (r.Some? <==> 0 < settings.maxPages && |visible| <= settings.maxPages * PAGE)
            && (r.Some? ==> r.value == Reading(visible, None))
  {
    hide Visible;
    if settings.maxPages > 0 {
      var visible := Visible(l, settings, log, now);
      ReadExactly(visible, None, settings.maxPages);
      assert From(visible, 0) == visible;
    }
  }

  function Creates(l: Ledger, settings: Settings, a: Attempt): seq<AccountEvent> {
    CreatedBy(l, Reading(Visible(l, settings, a.log, a.now), None), a.reasons)
  }

  /** An attempt stores the first `stored` of its events, and moves the time only after storing all of them. */
  lemma TryEffect(l: Ledger, settings: Settings, a: Attempt) returns (stored: nat, moved: bool)
    requires l.cursor.None?
    ensures stored <= |Creates(l, settings, a)| && (moved ==> stored == |Creates(l, settings, a)|)
    ensures var e, visible := Try(l, settings, a), Visible(l, settings, a.log, a.now);
            && e.cursor.None?
            && e.events == l.events + Creates(l, settings, a)[..stored]
            && (e.lastTime == if moved && Latest(visible).Some? then Latest(visible) else l.lastTime)
    ensures Succeeds(l, settings, a) ==> moved
  {
    hide Reconcile, CreatedBy, Visible, Latest, ReadLog;
    VisibleIsRead(l, settings, a.log, a.now);
    var reading := ReadLog(l, settings, a.log, a.now);
    if a.reachable && reading.Some? {
      ReconcileEffect(l, reading.value, a.reasons, a.fault);
      var n := Done(l, reading.value, a.reasons, a.fault);
      stored, moved := StoredBy(l, reading.value, a.reasons, n), CursorStoredBy(l, reading.value, a.reasons, n);
    } else {
      UnreadableEffect(l, a.reasons, a.fault);
      stored, moved := 0, false;
      assert l.events + Creates(l, settings, a)[..0] == l.events;
    }
  }

  lemma {:induction false} CursorStaysClear(l: Ledger, settings: Settings, attempts: seq<Attempt>)
    requires l.cursor.None?
    ensures Run(l, settings, attempts).cursor.None?
  {
    hide Try;
    if attempts != [] {
      var init := attempts[..|attempts| - 1];
      CursorStaysClear(l, settings, init);
      var _, _ := TryEffect(Run(l, settings, init), settings, attempts[|attempts| - 1]);
    }
  }

  lemma {:induction false} EventsOnlyGrow(l: Ledger, settings: Settings, attempts: seq<Attempt>)
    requires l.cursor.None?
    ensures l.events <= Run(l, settings, attempts).events
  {
    hide Try;
    if attempts != [] {
      var init := attempts[..|attempts| - 1];
      EventsOnlyGrow(l, settings, init);
      CursorStaysClear(l, settings, init);
      var _, _ := TryEffect(Run(l, settings, init), settings, attempts[|attempts| - 1]);
    }
  }

  // ------------------------------------------------------------- no event twice

  ghost predicate Unique(events: seq<AccountEvent>) {
    forall i, j :: 0 <= i < j < |events| ==> events[i].fingerprint != events[j].fingerprint
  }

  lemma CreatedIsNew(l: Ledger, reading: Reading, reasons: set<Reason>)
    ensures Unique(CreatedBy(l, reading, reasons))
    ensures forall e :: e in CreatedBy(l, reading, reasons) ==> !Recorded(l.events, e.fingerprint)
  {
    NewEventsAreNew(l.events, reading.operations);
    var created := NewEvents(l.events, reading.operations);
    forall e | e in created ensures !Recorded(l.events, e.fingerprint) {
      assert IsNew(l.events, reading.operations, e);
    }
  }

  lemma UniqueAppend(events: seq<AccountEvent>, more: seq<AccountEvent>)
    requires Unique(events) && Unique(more)
    requires forall e :: e in more ==> !Recorded(events, e.fingerprint)
    ensures Unique(events + more)
  {
    forall i, j | 0 <= i < |events| && 0 <= j < |more| ensures events[i].fingerprint != more[j].fingerprint {
      assert more[j] in more;
    }
  }

  /**
   * There is never more than one event for an operation and type, nor more than one account-change event in
   * the whole life of the account.
   */
  lemma {:induction false} EventsUnique(account: string, settings: Settings, attempts: seq<Attempt>)
    ensures Unique(Run(NewLedger(account), settings, attempts).events)
  {
    hide Try, CreatedBy;
    if attempts != [] {
      var init, a := attempts[..|attempts| - 1], attempts[|attempts| - 1];
      var l := Run(NewLedger(account), settings, init);
      EventsUnique(account, settings, init);
      CursorStaysClear(NewLedger(account), settings, init);
      var stored, _ := TryEffect(l, settings, a);
      var created := Creates(l, settings, a);
      CreatedIsNew(l, Reading(Visible(l, settings, a.log, a.now), None), a.reasons);
      assert forall e :: e in created[..stored] ==> e in created;
      UniqueAppend(l.events, created[..stored]);
    }
  }

  // ------------------------------------------------------------- the cursor never runs ahead of the ledger

  /** All attempts see the same date-ordered log, each as far as it had grown by then. */
  ghost predicate SameLog(attempts: seq<Attempt>, log: seq<Operation>) {
    SortedByDate(log) && forall a :: a in attempts ==> a.log <= log
  }

  /** The start of the window of the first attempt that stored a time. */
  function FirstWindow(account: string, settings: Settings, attempts: seq<Attempt>): Option<int> {
    if attempts == [] then None
    else
      var init := attempts[..|attempts| - 1];
      var earlier := FirstWindow(account, settings, init);
      if earlier.Some? || Run(NewLedger(account), settings, attempts).lastTime.None? then earlier
      else Some(WindowStart(Run(NewLedger(account), settings, init), settings, attempts[|attempts| - 1].now))
  }

  /** Every operation of the log dated from `from` to strictly before `to` that calls for an event has it. */
  ghost predicate Covered(events: seq<AccountEvent>, log: seq<Operation>, from: int, to: int) {
    forall op :: op in log && from <= op.date < to ==> !Missing(events, op)
  }

  lemma MissingShrinks(events: seq<AccountEvent>, more: seq<AccountEvent>, op: Operation)
    requires !Missing(events, op)
    ensures !Missing(events + more, op)
  {
    if EventTypeOf(op).Some? {
      RecordedAppend(events, more, EventOf(op).fingerprint);
    }
  }

  /** An attempt that moves the time has an event for everything it read. */
  lemma MovedRecordsAll(l: Ledger, reading: Reading, reasons: set<Reason>)
    ensures AllRecorded(l.events + CreatedBy(l, reading, reasons), reading.operations)
  {
    var created := NewEvents(l.events, reading.operations);
    NewEventsRecord(l.events, reading.operations);
    if created == [] {
      assert l.events + created == l.events;
      forall op | op in reading.operations ensures !Missing(l.events + CreatedBy(l, reading, reasons), op) {
        MissingShrinks(l.events, CreatedBy(l, reading, reasons), op);
      }
    }
  }

  /** One attempt extends the covered stretch from the start of its window to the time it stores. */
  lemma TryCovers(l: Ledger, settings: Settings, a: Attempt, log: seq<Operation>, from: int)
    requires l.cursor.None? && SortedByDate(log) && a.log <= log
    requires l.lastTime.Some? ==> Covered(l.events, log, from, l.lastTime.value)
    requires l.lastTime.None? ==> from == WindowStart(l, settings, a.now)
    ensures var e := Try(l, settings, a); e.lastTime.Some? ==> Covered(e.events, log, from, e.lastTime.value)
  {
    hide Try, CreatedBy, Missing, Latest;
    var stored, moved := TryEffect(l, settings, a);
    var e, visible, created := Try(l, settings, a), Visible(l, settings, a.log, a.now), Creates(l, settings, a);
    var start := WindowStart(l, settings, a.now);
    LatestIsMax(visible);
    BetweenMembers(a.log, start, a.now);
    assert created[..|created|] == created;
    MovedRecordsAll(l, Reading(visible, None), a.reasons);
    forall op | op in log && e.lastTime.Some? && from <= op.date < e.lastTime.value ensures !Missing(e.events, op) {
      if l.lastTime.Some? && op.date < l.lastTime.value {
        MissingShrinks(l.events, created[..stored], op);
      } else {
        assert moved && op.date >= start;
        var newest :| newest in visible && newest.date == e.lastTime.value;
        BeforeNewest(log, a.log, op, newest);
        assert op in visible;
      }
    }
  }

  lemma BeforeNewest(log: seq<Operation>, seen: seq<Operation>, op: Operation, newest: Operation)
    requires SortedByDate(log) && seen <= log && op in log && newest in seen && op.date < newest.date
    ensures op in seen
  {
    var i :| 0 <= i < |log| && log[i] == op;
    var j :| 0 <= j < |seen| && seen[j] == newest;
    assert log[j] == newest;
  }

  /**
   * The cursor never runs ahead of the ledger: after any history of successes, failures and crashes, every
   * deposit, withdrawal and trade of the log dated from the first window up to the stored time has its event.
   */
  lemma {:induction false} CursorNeverAhead(account: string, settings: Settings, attempts: seq<Attempt>, log: seq<Operation>)
    requires SameLog(attempts, log)
    ensures var l, from := Run(NewLedger(account), settings, attempts), FirstWindow(account, settings, attempts);
            && (l.lastTime.Some? <==> from.Some?)
            && (l.lastTime.Some? ==> Covered(l.events, log, from.value, l.lastTime.value))
  {
    hide Try, Covered, WindowStart;
    if attempts != [] {
      var init, a := attempts[..|attempts| - 1], attempts[|attempts| - 1];
      var l := Run(NewLedger(account), settings, init);
      CursorNeverAhead(account, settings, init, log);
      CursorStaysClear(NewLedger(account), settings, init);
      assert a in attempts;
      var from := FirstWindow(account, settings, init);
      TryCovers(l, settings, a, log, if from.Some? then from.value else WindowStart(l, settings, a.now));
      var _, _ := TryEffect(l, settings, a);
    }
  }

  // ------------------------------------------------------------- time

  lemma TryTime(l: Ledger, settings: Settings, a: Attempt)
    requires l.cursor.None? && l.lastTime.Some?
    requires settings.broker.Dated? || exists op :: op in a.log && op.date == l.lastTime.value
    ensures Try(l, settings, a).lastTime.Some? && Try(l, settings, a).lastTime.value >= l.lastTime.value
  {
    hide Try, Creates, Latest;
    var _, _ := TryEffect(l, settings, a);
    LatestIsMax(Visible(l, settings, a.log, a.now));
    BetweenMembers(a.log, l.lastTime.value, a.now);
  }

  /** With a dated broker the stored time never moves back, even if an attempt sees an older state of the log. */
  lemma {:induction false} TimeNeverBack(l: Ledger, settings: Settings, attempts: seq<Attempt>)
    requires l.cursor.None? && settings.broker.Dated? && l.lastTime.Some?
    ensures var e := Run(l, settings, attempts); e.lastTime.Some? && e.lastTime.value >= l.lastTime.value
  {
    hide Try;
    if attempts != [] {
      var init := attempts[..|attempts| - 1];
      TimeNeverBack(l, settings, init);
      CursorStaysClear(l, settings, init);
      TryTime(Run(l, settings, init), settings, attempts[|attempts| - 1]);
    }
  }

  ghost predicate LogsGrow(attempts: seq<Attempt>) {
    forall i, j :: 0 <= i <= j < |attempts| ==> attempts[i].log <= attempts[j].log
  }

  /** With the listing broker it never moves back while the log only grows. */
  lemma {:induction false} ListingTimeNeverBack(account: string, settings: Settings, attempts: seq<Attempt>)
    requires settings.broker.Listing? && LogsGrow(attempts) && attempts != []
    ensures var d, e := Run(NewLedger(account), settings, attempts[..|attempts| - 1]), Run(NewLedger(account), settings, attempts);
            && (d.lastTime.Some? ==> e.lastTime.Some? && e.lastTime.value >= d.lastTime.value)
            && (e.lastTime.Some? ==> exists op :: op in attempts[|attempts| - 1].log && op.date == e.lastTime.value)
  {
    hide Try, Latest;
    var init, a := attempts[..|attempts| - 1], attempts[|attempts| - 1];
    var d := Run(NewLedger(account), settings, init);
    if init != [] {
      ListingTimeNeverBack(account, settings, init);
      assert attempts[|init| - 1].log <= a.log;
      if d.lastTime.Some? {
        var op :| op in init[|init| - 1].log && op.date == d.lastTime.value;
        assert op in a.log;
      }
    }
    CursorStaysClear(NewLedger(account), settings, init);
    var _, _ := TryEffect(d, settings, a);
    LatestIsMax(a.log);
    if d.lastTime.Some? {
      TryTime(d, settings, a);
    }
  }
}
