/** Exactly-once under retry: a history of attempts leaves what one clean run would have left. */
module ReconciliationRetry {
  import opened Wrappers
  import opened Operations
  import opened Reconciliation
  import opened ReconciliationEvents
  import opened ReconciliationProperties

  /** `first` through `last` see the log no further than `last` does. */
  ghost predicate NoLaterThan(attempts: seq<Attempt>, last: Attempt) {
    SortedByDate(last.log) && forall a :: a in attempts ==> a.log <= last.log && a.now <= last.now
  }

  /** The window of a ledger is fixed once it has a time; the listing broker always shows its whole list. */
  predicate WindowFixed(l: Ledger, settings: Settings) {
    settings.broker.Listing? || l.lastTime.Some?
  }

  ghost predicate TimeWithin(base: Ledger, l: Ledger, window: seq<Operation>) {
    l.lastTime == base.lastTime || (l.lastTime.Some? && exists op :: op in window && op.date == l.lastTime.value)
  }

  /** `l` is on the way from `base` to what a clean run over `window` leaves, having stored the first `k` events. */
  ghost predicate OnTheWay(base: Ledger, l: Ledger, settings: Settings, window: seq<Operation>, k: nat) {
    && l.cursor.None?
    && k <= |NewEvents(base.events, window)|
    && OperationEvents(l.events) == OperationEvents(base.events) + NewEvents(base.events, window)[..k]
    && (settings.broker.Dated? ==>
          && base.lastTime.Some? && l.lastTime.Some? && base.lastTime.value <= l.lastTime.value
          && Covered(l.events, window, base.lastTime.value, l.lastTime.value))
    && TimeWithin(base, l, window)
  }

  /** What an attempt on the way sees: a stretch of the window, everything before it being recorded already. */
  lemma SeesStretch(base: Ledger, l: Ledger, settings: Settings, a: Attempt, last: Attempt, k: nat)
    returns (before: seq<Operation>, after: seq<Operation>)
    requires SortedByDate(last.log) && a.log <= last.log && a.now <= last.now
    requires OnTheWay(base, l, settings, Visible(base, settings, last.log, last.now), k)
    ensures Visible(base, settings, last.log, last.now) == before + Visible(l, settings, a.log, a.now) + after
    ensures AllRecorded(l.events, before)
    ensures a == last ==> after == []
  {
    if settings.broker.Listing? {
      before, after := [], last.log[|a.log|..];
      assert last.log == [] + a.log + last.log[|a.log|..];
    } else {
      before, after := DatedStretch(l.events, base.lastTime.value, l.lastTime.value, a, last);
    }
  }

  lemma DatedStretch(events: seq<AccountEvent>, from: int, cut: int, a: Attempt, last: Attempt)
    returns (before: seq<Operation>, after: seq<Operation>)
    requires SortedByDate(last.log) && a.log <= last.log && a.now <= last.now && from <= cut
    requires Covered(events, Between(last.log, from, last.now), from, cut)
    ensures Between(last.log, from, last.now) == before + Between(a.log, cut, a.now) + after
    ensures AllRecorded(events, before)
    ensures a == last ==> after == []
  {
    hide Missing, Between;
    var earlier := if cut <= last.now then cut - 1 else last.now;
    var window, seen, rest := Between(last.log, from, last.now), Between(a.log, cut, a.now), Between(last.log, cut, last.now);
    BetweenCut(last.log, from, cut, last.now);
    BetweenPrefix(a.log, last.log, cut, a.now, last.now);
    before, after := Between(last.log, from, earlier), rest[|seen|..];
    assert rest == seen + after;
    BetweenMembers(last.log, from, earlier);
    BetweenMembers(last.log, from, last.now);
    BetweenDates(last.log, from, cut, last.now);
    forall op | op in before ensures !Missing(events, op) {
      assert op in window;
    }
  }

  lemma BetweenDates(log: seq<Operation>, from: int, cut: int, to: int)
    ensures forall op :: op in Between(log, from, if cut <= to then cut - 1 else to) ==> op.date < cut
  {
    BetweenMembers(log, from, if cut <= to then cut - 1 else to);
  }

  /** So the events it would store are the next ones of the clean run. */
  lemma CreatesNext(base: Ledger, l: Ledger, before: seq<Operation>, seen: seq<Operation>, after: seq<Operation>, k: nat)
    requires k <= |NewEvents(base.events, before + seen + after)|
    requires OperationEvents(l.events)
          == OperationEvents(base.events) + NewEvents(base.events, before + seen + after)[..k]
    requires AllRecorded(l.events, before)
    ensures NewEvents(l.events, seen) <= NewEvents(base.events, before + seen + after)[k..]
    ensures after == [] ==> NewEvents(l.events, seen) == NewEvents(base.events, before + seen + after)[k..]
  {
    hide AllRecorded, Missing;
    var window := before + seen + after;
    NewEventsOverOperationEvents(base.events, window);
    Resume(OperationEvents(base.events), window, k);
    NewEventsOverOperationEvents(l.events, window);
    SkipRecorded(l.events, before, seen);
    NewEventsPrefix(l.events, before + seen, after);
    if after == [] {
      assert window == before + seen;
    }
  }

  lemma CreatedOperations(l: Ledger, reading: Reading, reasons: set<Reason>, stored: nat)
    requires stored <= |CreatedBy(l, reading, reasons)|
    ensures var brandNew, kept := NewEvents(l.events, reading.operations),
                               OperationEvents(CreatedBy(l, reading, reasons)[..stored]);
            && kept <= brandNew && (stored == |CreatedBy(l, reading, reasons)| ==> kept == brandNew)
  {
    var created := NewEvents(l.events, reading.operations);
    NewEventsAreNew(l.events, reading.operations);
    if created == [] {
      var change := ChangeOf(l.account);
      assert [change][..1] == [change] && [change][..0] == [];
    } else {
      forall i | 0 <= i < |created[..stored]| ensures created[..stored][i].fingerprint.OfOperation? {
        assert created[i] in created;
        assert IsNew(l.events, reading.operations, created[i]);
      }
      AllOperationEvents(created[..stored]);
    }
  }

  /** Time and coverage after one attempt that saw the stretch `seen` of the window. */
  lemma TimeStaysInWindow(base: Ledger, l: Ledger, e: Ledger, settings: Settings, a: Attempt, last: Attempt, k: nat)
    requires SortedByDate(last.log) && a.log <= last.log && a.now <= last.now
    requires OnTheWay(base, l, settings, Visible(base, settings, last.log, last.now), k)
    requires e == Try(l, settings, a)
    ensures settings.broker.Dated? ==> e.lastTime.Some? && base.lastTime.value <= e.lastTime.value
    ensures TimeWithin(base, e, Visible(base, settings, last.log, last.now))
  {
    hide Try, Creates, Latest, Covered;
    var _, _ := TryEffect(l, settings, a);
    var window, seen := Visible(base, settings, last.log, last.now), Visible(l, settings, a.log, a.now);
    var before, after := SeesStretch(base, l, settings, a, last, k);
    LatestIsMax(seen);
    assert forall op :: op in seen ==> op in window;
    if settings.broker.Dated? {
      TryTime(l, settings, a);
    }
  }

  lemma CoverageGrows(base: Ledger, l: Ledger, settings: Settings, a: Attempt, last: Attempt)
    requires settings.broker.Dated? && l.cursor.None? && base.lastTime.Some? && l.lastTime.Some?
    requires SortedByDate(last.log) && a.log <= last.log
    requires Covered(l.events, Visible(base, settings, last.log, last.now), base.lastTime.value, l.lastTime.value)
    ensures var e := Try(l, settings, a);
            e.lastTime.Some? ==>
              Covered(e.events, Visible(base, settings, last.log, last.now), base.lastTime.value, e.lastTime.value)
  {
    hide Try, Missing;
    var from := base.lastTime.value;
    var window := Visible(base, settings, last.log, last.now);
    BetweenMembers(last.log, from, last.now);
    forall op | op in window && from <= op.date < l.lastTime.value ensures !Missing(l.events, op) {
    }
    TryCoversWindow(l, settings, a, window, last.log, from);
  }

  /** As for the whole log, for a part of it that is cut by dates only. */
  lemma TryCoversWindow(l: Ledger, settings: Settings, a: Attempt, window: seq<Operation>, log: seq<Operation>, from: int)
    requires l.cursor.None? && l.lastTime.Some? && SortedByDate(log) && a.log <= log
    requires forall op :: op in window ==> op in log
    requires Covered(l.events, window, from, l.lastTime.value)
    ensures var e := Try(l, settings, a); e.lastTime.Some? ==> Covered(e.events, window, from, e.lastTime.value)
  {
    hide Try, CreatedBy, Missing, Latest;
    var stored, moved := TryEffect(l, settings, a);
    var e, visible, created := Try(l, settings, a), Visible(l, settings, a.log, a.now), Creates(l, settings, a);
    var start := WindowStart(l, settings, a.now);
    LatestIsMax(visible);
    BetweenMembers(a.log, start, a.now);
    assert created[..|created|] == created;
    MovedRecordsAll(l, Reading(visible, None), a.reasons);
    forall op | op in window && e.lastTime.Some? && from <= op.date < e.lastTime.value ensures !Missing(e.events, op) {
      if op.date < l.lastTime.value {
        MissingShrinks(l.events, created[..stored], op);
      } else {
        var newest :| newest in visible && newest.date == e.lastTime.value;
        BeforeNewest(log, a.log, op, newest);
        assert op in visible;
      }
    }
  }

  lemma StepOnTheWay(base: Ledger, l: Ledger, settings: Settings, a: Attempt, last: Attempt, k: nat) returns (next: nat)
    requires SortedByDate(last.log) && a.log <= last.log && a.now <= last.now
    requires OnTheWay(base, l, settings, Visible(base, settings, last.log, last.now), k)
    ensures OnTheWay(base, Try(l, settings, a), settings, Visible(base, settings, last.log, last.now), next)
    ensures a == last && Succeeds(l, settings, a) ==>
              next == |NewEvents(base.events, Visible(base, settings, last.log, last.now))|
  {
    hide Try, Visible, Missing, Latest, CreatedBy, Succeeds;
    var window, seen := Visible(base, settings, last.log, last.now), Visible(l, settings, a.log, a.now);
    var before, after := SeesStretch(base, l, settings, a, last, k);
    CreatesNext(base, l, before, seen, after, k);
    var stored, moved := TryEffect(l, settings, a);
    var created := Creates(l, settings, a)[..stored];
    CreatedOperations(l, Reading(seen, None), a.reasons, stored);
    OperationEventsAppend(l.events, created);
    next := k + |OperationEvents(created)|;
    var all := NewEvents(base.events, window);
    assert OperationEvents(created) <= all[k..];
    assert all[..next] == all[..k] + OperationEvents(created);
    TimeStaysInWindow(base, l, Try(l, settings, a), settings, a, last, k);
    if settings.broker.Dated? {
      CoverageGrows(base, l, settings, a, last);
    }
  }

  lemma StartOnTheWay(base: Ledger, settings: Settings, window: seq<Operation>)
    requires base.cursor.None? && WindowFixed(base, settings)
    ensures OnTheWay(base, base, settings, window, 0)
  {
  }

  lemma {:induction false} RunOnTheWay(base: Ledger, settings: Settings, attempts: seq<Attempt>, last: Attempt)
    returns (k: nat)
    requires base.cursor.None? && WindowFixed(base, settings) && NoLaterThan(attempts, last)
    ensures OnTheWay(base, Run(base, settings, attempts), settings, Visible(base, settings, last.log, last.now), k)
  {
    hide Try, Visible, OnTheWay, SortedByDate;
    if attempts == [] {
      StartOnTheWay(base, settings, Visible(base, settings, last.log, last.now));
      k := 0;
    } else {
      var init, a := attempts[..|attempts| - 1], attempts[|attempts| - 1];
      assert a in attempts;
      k := RunOnTheWay(base, settings, init, last);
      k := StepOnTheWay(base, Run(base, settings, init), settings, a, last, k);
    }
  }

  lemma SuccessTime(l: Ledger, settings: Settings, a: Attempt)
    requires l.cursor.None? && Succeeds(l, settings, a)
    ensures var latest := Latest(Visible(l, settings, a.log, a.now));
            Try(l, settings, a).lastTime == if latest.Some? then latest else l.lastTime
  {
    hide Try, Visible, Latest, Creates, Succeeds;
    var _, _ := TryEffect(l, settings, a);
  }

  /** Cutting a window at the date of one of its operations keeps its latest date. */
  lemma LatestAfterCut(log: seq<Operation>, from: int, cut: int, to: int)
    requires from <= cut && exists op :: op in Between(log, from, to) && op.date == cut
    ensures Latest(Between(log, cut, to)).Some? && Latest(Between(log, cut, to)) == Latest(Between(log, from, to))
  {
    hide Latest, Between;
    var window, seen := Between(log, from, to), Between(log, cut, to);
    BetweenMembers(log, from, to);
    BetweenMembers(log, cut, to);
    LatestIsMax(window);
    LatestIsMax(seen);
    var op :| op in window && op.date == cut;
    assert op in seen;
    var newest :| newest in window && newest.date == Latest(window).value;
    assert newest in seen;
  }

  /** The time a success stores does not depend on how far the attempts before it had got. */
  lemma SameTime(base: Ledger, l: Ledger, settings: Settings, last: Attempt, k: nat)
    requires base.cursor.None? && WindowFixed(base, settings)
    requires OnTheWay(base, l, settings, Visible(base, settings, last.log, last.now), k)
    requires Succeeds(l, settings, last) && Succeeds(base, settings, last)
    ensures Try(l, settings, last).lastTime == Try(base, settings, last).lastTime
  {
    hide Try, Latest, Succeeds, Covered, Between, NewEvents, OperationEvents;
    SuccessTime(l, settings, last);
    SuccessTime(base, settings, last);
    if l.lastTime != base.lastTime {
      if settings.broker.Dated? {
        LatestAfterCut(last.log, base.lastTime.value, l.lastTime.value, last.now);
      } else {
        LatestIsMax(last.log);
      }
    }
  }

  /**
   * Reconciliation is exactly-once under retry. Once the ledger has a time (always, with the listing broker),
   * any sequence of attempts, failed, crashed or successful, followed by a success leaves exactly the operation
   * events, in the same order, that one clean run over the final log would have left.
   */
  lemma ExactlyOnce(base: Ledger, settings: Settings, attempts: seq<Attempt>, last: Attempt)
    requires base.cursor.None? && WindowFixed(base, settings) && NoLaterThan(attempts, last)
    requires Succeeds(Run(base, settings, attempts), settings, last) && Succeeds(base, settings, last)
    ensures OperationEvents(Try(Run(base, settings, attempts), settings, last).events)
         == OperationEvents(Try(base, settings, last).events)
    ensures Try(Run(base, settings, attempts), settings, last).lastTime == Try(base, settings, last).lastTime
  {
    hide Try, Visible, Succeeds;
    var window := Visible(base, settings, last.log, last.now);
    var l := Run(base, settings, attempts);
    var k := RunOnTheWay(base, settings, attempts, last);
    SameTime(base, l, settings, last, k);
    k := StepOnTheWay(base, l, settings, last, last, k);
    StartOnTheWay(base, settings, window);
    var all := StepOnTheWay(base, base, settings, last, last, 0);
  }
}
