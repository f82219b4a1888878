/** How the loop over operations behaves when it is cut short and started again. */
module ReconciliationEvents {
  import opened Wrappers
  import opened Operations
  import opened Reconciliation

  lemma RecordedAppend(a: seq<AccountEvent>, b: seq<AccountEvent>, mark: Fingerprint)
    ensures Recorded(a + b, mark) <==> Recorded(a, mark) || Recorded(b, mark)
  {
    if Recorded(a, mark) {
      var i :| 0 <= i < |a| && a[i].fingerprint == mark;
      assert (a + b)[i].fingerprint == mark;
    }
    if Recorded(b, mark) {
      var i :| 0 <= i < |b| && b[i].fingerprint == mark;
      assert (a + b)[|a| + i].fingerprint == mark;
    }
  }

  /** Every operation that calls for an event has it. */
  ghost predicate AllRecorded(events: seq<AccountEvent>, operations: seq<Operation>) {
    forall op :: op in operations ==> !Missing(events, op)
  }

  lemma SplitLast<T>(xs: seq<T>)
    requires xs != []
    ensures xs == xs[..|xs| - 1] + [xs[|xs| - 1]]
  {
  }

  lemma {:induction false} NewEventsRecord(events: seq<AccountEvent>, operations: seq<Operation>)
    ensures AllRecorded(events + NewEvents(events, operations), operations)
  {
    if operations != [] {
      var init, op := operations[..|operations| - 1], operations[|operations| - 1];
      var before, all := NewEvents(events, init), NewEvents(events, operations);
      NewEventsRecord(events, init);
      SplitLast(operations);
      forall x | x in operations ensures !Missing(events + all, x) {
        if x in init || all == before {
          assert !Missing(events + before, x);
          if EventTypeOf(x).Some? {
            RecordedAppend(events + before, all[|before|..], EventOf(x).fingerprint);
            assert events + before + all[|before|..] == events + all;
          }
        } else {
          assert (events + all)[|events + before|] == EventOf(op);
        }
      }
    }
  }

  ghost predicate IsNew(events: seq<AccountEvent>, operations: seq<Operation>, e: AccountEvent) {
    exists op :: op in operations && Missing(events, op) && e == EventOf(op)
  }

  /** The new events are events of the given operations, none of them recorded before, and all different. */
  lemma {:induction false} NewEventsAreNew(events: seq<AccountEvent>, operations: seq<Operation>)
    ensures forall e :: e in NewEvents(events, operations) ==> IsNew(events, operations, e)
    ensures forall i, j :: 0 <= i < j < |NewEvents(events, operations)| ==>
              NewEvents(events, operations)[i].fingerprint != NewEvents(events, operations)[j].fingerprint
  {
    if operations != [] {
      var init, op := operations[..|operations| - 1], operations[|operations| - 1];
      var before, all := NewEvents(events, init), NewEvents(events, operations);
      NewEventsAreNew(events, init);
      SplitLast(operations);
      forall e | e in before ensures IsNew(events, operations, e) {
        assert IsNew(events, init, e);
        var x :| x in init && Missing(events, x) && e == EventOf(x);
        assert x in operations;
      }
      if all != before {
        RecordedAppend(events, before, EventOf(op).fingerprint);
        assert forall i :: 0 <= i < |before| ==> before[i].fingerprint != EventOf(op).fingerprint;
        assert op in operations && Missing(events, op);
        assert IsNew(events, operations, EventOf(op));
      }
    }
  }

  lemma {:induction false} NewEventsPrefix(events: seq<AccountEvent>, first: seq<Operation>, rest: seq<Operation>)
    ensures NewEvents(events, first) <= NewEvents(events, first + rest)
  {
    if rest == [] {
      assert first + rest == first;
    } else {
      NewEventsPrefix(events, first, rest[..|rest| - 1]);
      assert (first + rest)[..|first + rest| - 1] == first + rest[..|rest| - 1];
    }
  }

  /** Operations already recorded make no difference. */
  lemma {:induction false} SkipRecorded(events: seq<AccountEvent>, first: seq<Operation>, rest: seq<Operation>)
    requires AllRecorded(events, first)
    ensures NewEvents(events, first + rest) == NewEvents(events, rest)
    decreases |first| + |rest|
  {
    if rest != [] {
      SkipRecorded(events, first, rest[..|rest| - 1]);
      assert (first + rest)[..|first + rest| - 1] == first + rest[..|rest| - 1];
    } else if first != [] {
      var init, op := first[..|first| - 1], first[|first| - 1];
      SplitLast(first);
      SkipRecorded(events, init, []);
      assert init + [] == init && first + [] == first;
      assert !Missing(events, op) && events + [] == events;
    }
  }

  /** A loop started again after storing the first `k` new events stores exactly the remaining ones. */
  lemma {:induction false} Resume(events: seq<AccountEvent>, operations: seq<Operation>, k: nat)
    requires k <= |NewEvents(events, operations)|
    ensures NewEvents(events + NewEvents(events, operations)[..k], operations) == NewEvents(events, operations)[k..]
  {
    hide Missing;
    var all := NewEvents(events, operations);
    if k == |all| {
      NewEventsRecord(events, operations);
      assert all[..k] == all && operations + [] == operations;
      SkipRecorded(events + all, operations, []);
    } else {
      var init, op := operations[..|operations| - 1], operations[|operations| - 1];
      var before := NewEvents(events, init);
      assert k <= |before|;
      Resume(events, init, k);
      assert all[..k] == before[..k];
      assert events + all[..k] + before[k..] == events + before;
    }
  }

  // ------------------------------------------------------------- events of operations only

  /** The events that stand for operations: all but the account-change event. */
  function OperationEvents(events: seq<AccountEvent>): seq<AccountEvent> {
    if events == [] then []
    else
      var last := events[|events| - 1];
      OperationEvents(events[..|events| - 1]) + if last.fingerprint.OfOperation? then [last] else []
  }

  lemma {:induction false} OperationEventsAppend(a: seq<AccountEvent>, b: seq<AccountEvent>)
    ensures OperationEvents(a + b) == OperationEvents(a) + OperationEvents(b)
  {
    if b == [] {
      assert a + b == a;
    } else {
      OperationEventsAppend(a, b[..|b| - 1]);
      assert (a + b)[..|a + b| - 1] == a + b[..|b| - 1];
    }
  }

  lemma {:induction false} OperationEventsRecorded(events: seq<AccountEvent>, mark: Fingerprint)
    requires mark.OfOperation?
    ensures Recorded(OperationEvents(events), mark) <==> Recorded(events, mark)
  {
    if events != [] {
      var init, last := events[..|events| - 1], events[|events| - 1];
      OperationEventsRecorded(init, mark);
      SplitLast(events);
      RecordedAppend(init, [last], mark);
      RecordedAppend(OperationEvents(init), if last.fingerprint.OfOperation? then [last] else [], mark);
      assert [last][0].fingerprint == mark <==> Recorded([last], mark);
    }
  }

  lemma {:induction false} AllOperationEvents(events: seq<AccountEvent>)
    requires forall i :: 0 <= i < |events| ==> events[i].fingerprint.OfOperation?
    ensures OperationEvents(events) == events
  {
    if events != [] {
      AllOperationEvents(events[..|events| - 1]);
    }
  }

  /** What counts for the loop is which operations have events, not the order of the table or the account-change event. */
  lemma {:induction false} SameMarks(a: seq<AccountEvent>, b: seq<AccountEvent>, operations: seq<Operation>)
    requires forall op :: Missing(a, op) <==> Missing(b, op)
    ensures NewEvents(a, operations) == NewEvents(b, operations)
  {
    if operations != [] {
      var init, op := operations[..|operations| - 1], operations[|operations| - 1];
      SameMarks(a, b, init);
      if EventTypeOf(op).Some? {
        RecordedAppend(a, NewEvents(a, init), EventOf(op).fingerprint);
        RecordedAppend(b, NewEvents(b, init), EventOf(op).fingerprint);
        assert Missing(a, op) <==> Missing(b, op);
      }
    }
  }

  lemma NewEventsOverOperationEvents(events: seq<AccountEvent>, operations: seq<Operation>)
    ensures NewEvents(OperationEvents(events), operations) == NewEvents(events, operations)
  {
    forall op ensures Missing(OperationEvents(events), op) <==> Missing(events, op) {
      if EventTypeOf(op).Some? {
        OperationEventsRecorded(events, EventOf(op).fingerprint);
      }
    }
    SameMarks(OperationEvents(events), events, operations);
  }

  // ------------------------------------------------------------- one run, commit by commit

  /** How many of a run's events its first `n` commits store. */
  function StoredBy(l: Ledger, reading: Reading, reasons: set<Reason>, n: nat): (k: nat)
    ensures k <= |CreatedBy(l, reading, reasons)|
  {
    var before, all := |Opening(l, reasons)| + 1, |CreatedBy(l, reading, reasons)|;
    if n <= before then 0 else if n <= before + all then n - before else all
  }

  predicate CursorStoredBy(l: Ledger, reading: Reading, reasons: set<Reason>, n: nat) {
    n >= |Opening(l, reasons)| + 1 + |CreatedBy(l, reading, reasons)| + 1
  }

  /** The commits of a clean run, one by one. */
  lemma CommitAt(l: Ledger, reading: Reading, reasons: set<Reason>, i: nat)
    requires i < |Commits(l, reading, reasons)|
    ensures var c, before := Commits(l, reading, reasons)[i], |Opening(l, reasons)|;
            var created := CreatedBy(l, reading, reasons);
            if i < before then c.Started?
            else if i == before then c.StateSaved?
            else if i <= before + |created| then c == EventSaved(created[i - before - 1])
            else if i == before + |created| + 1 then c == CursorSaved(reading.cursor, reading.operations)
            else c.Finished?
  {
    hide CreatedBy;
  }

  lemma {:induction false} Progress(l: Ledger, reading: Reading, reasons: set<Reason>, n: nat)
    requires n <= |Commits(l, reading, reasons)|
    ensures var e := ApplyAll(l, Commits(l, reading, reasons)[..n]);
            && e.events == l.events + CreatedBy(l, reading, reasons)[..StoredBy(l, reading, reasons, n)]
            && e.cursor == (if CursorStoredBy(l, reading, reasons, n) then reading.cursor else l.cursor)
            && e.lastTime == if CursorStoredBy(l, reading, reasons, n) && Latest(reading.operations).Some?
                             then Latest(reading.operations) else l.lastTime
  {
    hide CreatedBy, Latest, Commits, Opening;
    var commits, created := Commits(l, reading, reasons), CreatedBy(l, reading, reasons);
    if n == 0 {
      assert l.events + created[..0] == l.events;
    } else {
      Progress(l, reading, reasons, n - 1);
      CommitAt(l, reading, reasons, n - 1);
      assert commits[..n][..n - 1] == commits[..n - 1];
      var before, after := StoredBy(l, reading, reasons, n - 1), StoredBy(l, reading, reasons, n);
      if after > before {
        assert l.events + created[..before] + [created[before]] == l.events + created[..after];
      }
    }
  }

  /** The number of commits a run makes before it ends, not counting the record of its failure. */
  function Done(l: Ledger, reading: Reading, reasons: set<Reason>, fault: Fault): (n: nat)
    ensures n <= |Commits(l, reading, reasons)|
  {
    var all := |Commits(l, reading, reasons)|;
    match fault
    case NoFault => all
    case Crash(n) => if n <= all then n else all
    case Failure(n) => if n < |Opening(l, reasons)| then 0 else if n <= all then n else all
  }

  /** What one run leaves, whatever happens to it. */
  lemma ReconcileEffect(l: Ledger, reading: Reading, reasons: set<Reason>, fault: Fault)
    ensures var e := Reconcile(l, Some(reading), reasons, fault);
            var n := Done(l, reading, reasons, fault);
            && e.events == l.events + CreatedBy(l, reading, reasons)[..StoredBy(l, reading, reasons, n)]
            && e.cursor == (if CursorStoredBy(l, reading, reasons, n) then reading.cursor else l.cursor)
            && e.lastTime == if CursorStoredBy(l, reading, reasons, n) && Latest(reading.operations).Some?
                             then Latest(reading.operations) else l.lastTime
  {
    hide Commits, StoredBy, CursorStoredBy, CreatedBy, Latest;
    var commits, n := Commits(l, reading, reasons), Done(l, reading, reasons, fault);
    Progress(l, reading, reasons, n);
    assert commits[..|commits|] == commits && commits[..0] == [];
    if fault.Failure? && |Opening(l, reasons)| <= fault.commits < |commits| {
      var failed := commits[..n] + [Finished(FAILED, |reading.operations|, 0)];
      assert failed[..|failed| - 1] == commits[..n];
    }
  }

  lemma {:induction false} AccountKept(l: Ledger, commits: seq<Commit>)
    ensures ApplyAll(l, commits).account == l.account
  {
    hide Latest;
    if commits != [] {
      AccountKept(l, commits[..|commits| - 1]);
    }
  }

  lemma {:induction false} RowCommitsOnly(l: Ledger, commits: seq<Commit>)
    requires forall c :: c in commits ==> c.Started? || c.Finished?
    ensures var e := ApplyAll(l, commits); e.events == l.events && e.cursor == l.cursor && e.lastTime == l.lastTime
  {
    if commits != [] {
      assert commits[|commits| - 1] in commits;
      RowCommitsOnly(l, commits[..|commits| - 1]);
    }
  }

  lemma OpeningKeeps(l: Ledger, reasons: set<Reason>)
    ensures ApplyAll(l, Opening(l, reasons)).cursor == l.cursor
  {
    RowCommitsOnly(l, Opening(l, reasons));
  }

  lemma UnreadableEffect(l: Ledger, reasons: set<Reason>, fault: Fault)
    ensures var e := Reconcile(l, None, reasons, fault);
            e.events == l.events && e.cursor == l.cursor && e.lastTime == l.lastTime
  {
    hide ApplyAll;
    var commits := Opening(l, reasons) + [Finished(FAILED, 0, 0)];
    RowCommitsOnly(l, []);
    RowCommitsOnly(l, commits);
    if fault.Crash? {
      RowCommitsOnly(l, First(commits, fault.commits));
    }
  }
}
