/** The reconciliation service over a database session, proved to make exactly the commits of the protocol. */
module ReconciliationService {
  import opened Wrappers
  import opened Operations
  import R = Reconciliation
  import E = ReconciliationEvents

  type Ledger = R.Ledger
  type AccountEvent = R.AccountEvent
  type Fault = R.Fault
  type Reason = R.Reason

  /** A session sees its own uncommitted changes; `limit` is the number of commits after which the next one fails. */
  class StreamRepository {
    var committed: Ledger
    var session: Ledger
    var commits: nat
    var limit: Option<nat>

    constructor (stored: Ledger)
      ensures committed == session == stored && commits == 0 && limit == None
    {
      committed, session, commits, limit := stored, stored, 0, None;
    }

    method Commit() returns (ok: bool)
      modifies this`committed, this`commits
      ensures ok <==> old(limit.None? || commits < limit.value)
      ensures committed == if ok then session else old(committed)
      ensures commits == if ok then old(commits) + 1 else old(commits)
    {
      ok := limit.None? || commits < limit.value;
      if ok {
        committed := session;
        commits := commits + 1;
      }
    }

    method Rollback()
      modifies this`session
      ensures session == committed
    {
      session := committed;
    }

    method CreateReconciliation(reasons: set<Reason>) returns (ok: bool)
      requires session == committed
      modifies this`session, this`committed, this`commits
      ensures ok <==> old(R.RowOf(session).Some? || limit.None? || commits < limit.value)
      ensures ok ==> session == committed == R.ApplyAll(old(session), R.Opening(old(session), reasons))
      ensures ok ==> commits == old(commits) + |R.Opening(old(session), reasons)|
      ensures !ok ==> committed == old(committed) && commits == old(commits)
    {
      ghost var opening := R.Opening(session, reasons);
      if R.RowOf(session).Some? {
        return true;
      }
      assert opening[..0] == [];
      var row := R.Row(session.nextRow, reasons, R.RUNNING, 0, 0);
      session := session.(rows := session.rows[R.JobCorrelation(session.account) := row], nextRow := session.nextRow + 1);
      ok := Commit();
    }

    method SaveBrokerState() returns (ok: bool)
      modifies this`session, this`committed, this`commits
      ensures ok <==> old(limit.None? || commits < limit.value)
      ensures ok ==> session == committed == R.Apply(old(session), R.StateSaved) && commits == old(commits) + 1
      ensures !ok ==> committed == old(committed) && commits == old(commits)
    {
      session := session.(snapshots := session.snapshots + 1);
      ok := Commit();
    }

    /** Adds the event to the session unless its fingerprint is stored; the commit is left to the audit entry. */
    method SaveAccountEvent(event: AccountEvent) returns (created: bool)
      modifies this`session
      ensures created <==> !R.Recorded(old(session).events, event.fingerprint)
      ensures session == if created then R.Apply(old(session), R.EventSaved(event)) else old(session)
    {
      for i := 0 to |session.events|
        invariant session == old(session)
        invariant forall k :: 0 <= k < i ==> session.events[k].fingerprint != event.fingerprint
      {
        if session.events[i].fingerprint == event.fingerprint {
          return false;
        }
      }
      session := session.(events := session.events + [event]);
      return true;
    }

    method CommitCursor(cursor: Option<nat>, operations: seq<Operation>) returns (ok: bool)
      modifies this`session, this`committed, this`commits
      ensures ok <==> old(limit.None? || commits < limit.value)
      ensures ok ==> session == committed == R.Apply(old(session), R.CursorSaved(cursor, operations))
      ensures ok ==> commits == old(commits) + 1
      ensures !ok ==> committed == old(committed) && commits == old(commits)
    {
      session := session.(cursor := cursor);
      if operations != [] {
        var latest := operations[0].date;
        for i := 1 to |operations|
          invariant R.Latest(operations[..i]) == Some(latest)
        {
          assert operations[..i + 1][..i] == operations[..i];
          if latest <= operations[i].date {
            latest := operations[i].date;
          }
        }
        assert operations[..|operations|] == operations;
        session := session.(lastTime := Some(latest));
      }
      ok := Commit();
    }

    method FinishReconciliation(status: R.Status, count: nat, created: nat) returns (ok: bool)
      modifies this`session, this`committed, this`commits
      ensures ok <==> old(limit.None? || commits < limit.value)
      ensures ok ==> session == committed == R.Apply(old(session), R.Finished(status, count, created))
      ensures ok ==> commits == old(commits) + 1
      ensures !ok ==> committed == old(committed) && commits == old(commits)
    {
      var row := R.RowOf(session);
      if row.Some? {
        var done := row.value.(status := status, operations := count, events := created);
        session := session.(rows := session.rows[R.JobCorrelation(session.account) := done]);
      }
      ok := Commit();
    }
  }

  /** The end of a run whose next commit failed: a dead process leaves it at that, an exception is recorded. */
  method Interrupted(repository: StreamRepository, fault: Fault, count: nat) returns (status: Option<R.Status>)
    requires fault.Crash? || fault.Failure?
    modifies repository
    ensures repository.committed == if fault.Crash? then old(repository.committed)
                                    else R.Apply(old(repository.committed), R.Finished(R.FAILED, count, 0))
    ensures status == if fault.Crash? then None else Some(R.FAILED)
  {
    repository.Rollback();
    if fault.Crash? {
      return None;
    }
    repository.limit := None;
    var _ := repository.FinishReconciliation(R.FAILED, count, 0);
    return Some(R.FAILED);
  }

  // ------------------------------------------------------------- commits so far

  ghost function UpTo(l: Ledger, reasons: set<Reason>, created: seq<AccountEvent>): seq<R.Commit> {
    R.Opening(l, reasons) + [R.StateSaved] + R.Saved(created)
  }

  lemma UpToNext(l: Ledger, reasons: set<Reason>, created: seq<AccountEvent>, event: AccountEvent)
    ensures UpTo(l, reasons, created + [event]) == UpTo(l, reasons, created) + [R.EventSaved(event)]
  {
  }

  lemma ApplyNext(l: Ledger, commits: seq<R.Commit>, c: R.Commit)
    ensures R.ApplyAll(l, commits + [c]) == R.Apply(R.ApplyAll(l, commits), c)
  {
    assert (commits + [c])[..|commits|] == commits;
  }

  /** A run cut off after the commits so far ends as the protocol says. */
  lemma CutOff(l: Ledger, reading: Reading, reasons: set<Reason>, fault: Fault, sofar: seq<R.Commit>)
    requires sofar < R.Commits(l, reading, reasons) && |R.Opening(l, reasons)| <= |sofar|
    requires fault == R.Crash(|sofar|) || fault == R.Failure(|sofar|)
    ensures R.Reconcile(l, Some(reading), reasons, fault)
         == if fault.Crash? then R.ApplyAll(l, sofar)
            else R.Apply(R.ApplyAll(l, sofar), R.Finished(R.FAILED, |reading.operations|, 0))
  {
    hide R.Commits, R.Apply;
    assert R.Commits(l, reading, reasons)[..|sofar|] == sofar;
    ApplyNext(l, sofar, R.Finished(R.FAILED, |reading.operations|, 0));
  }

  lemma NotCutOff(l: Ledger, reading: Reading, reasons: set<Reason>, fault: Fault)
    requires fault.NoFault? || |R.Commits(l, reading, reasons)| <= fault.commits
    ensures R.Reconcile(l, Some(reading), reasons, fault) == R.ApplyAll(l, R.Commits(l, reading, reasons))
  {
    hide R.Commits;
    assert R.Commits(l, reading, reasons)[..|R.Commits(l, reading, reasons)|] == R.Commits(l, reading, reasons);
    OpeningFirst(l, reading, reasons);
  }

  lemma OpeningFirst(l: Ledger, reading: Reading, reasons: set<Reason>)
    ensures |R.Opening(l, reasons)| < |R.Commits(l, reading, reasons)|
  {
  }

  lemma PrefixOfCommits(l: Ledger, reading: Reading, reasons: set<Reason>, created: seq<AccountEvent>)
    requires created <= R.CreatedBy(l, reading, reasons)
    ensures UpTo(l, reasons, created) < R.Commits(l, reading, reasons)
    ensures created == R.CreatedBy(l, reading, reasons) ==>
              R.Commits(l, reading, reasons)
              == UpTo(l, reasons, created) + [R.CursorSaved(reading.cursor, reading.operations)]
                 + [R.Finished(R.SUCCEEDED, |reading.operations|, |created|)]
  {
    hide R.CreatedBy;
  }

  lemma SoFarCreated(l: Ledger, reading: Reading, reasons: set<Reason>, i: nat)
    requires i <= |reading.operations|
    ensures R.NewEvents(l.events, reading.operations[..i]) <= R.CreatedBy(l, reading, reasons)
  {
    E.NewEventsPrefix(l.events, reading.operations[..i], reading.operations[i..]);
    assert reading.operations[..i] + reading.operations[i..] == reading.operations;
  }

  // ------------------------------------------------------------- the run

  /** What has happened while nothing has gone wrong yet. */
  ghost predicate Underway(repository: StreamRepository, l: Ledger, reasons: set<Reason>, fault: Fault,
                           created: seq<AccountEvent>)
    reads repository
  {
    && repository.session == repository.committed == R.ApplyAll(l, UpTo(l, reasons, created))
    && repository.committed.events == l.events + created
    && repository.commits == |UpTo(l, reasons, created)|
    && repository.limit == Limit(fault)
    && (fault.NoFault? || repository.commits <= fault.commits)
  }

  function Limit(fault: Fault): Option<nat> {
    if fault.NoFault? then None else Some(fault.commits)
  }

  /** Saves one event and, if it was new, commits it. */
  method RecordEvent(repository: StreamRepository, ghost l: Ledger, ghost reasons: set<Reason>, ghost fault: Fault,
                     ghost created: seq<AccountEvent>, event: AccountEvent)
    returns (isNew: bool, ok: bool)
    requires Underway(repository, l, reasons, fault, created)
    modifies repository
    ensures isNew <==> !R.Recorded(l.events + created, event.fingerprint)
    ensures ok ==> Underway(repository, l, reasons, fault, if isNew then created + [event] else created)
    ensures !ok ==> isNew && repository.committed == old(repository.committed)
                    && !fault.NoFault? && fault.commits == |UpTo(l, reasons, created)|
  {
    hide R.Opening, R.Saved;
    UpToNext(l, reasons, created, event);
    ApplyNext(l, UpTo(l, reasons, created), R.EventSaved(event));
    isNew := repository.SaveAccountEvent(event);
    ok := true;
    if isNew {
      assert l.events + created + [event] == l.events + (created + [event]);
      ok := repository.Commit();
    }
  }

  /** What `_read_operations` yields from a cursor, `views` being the operations the broker has at each page. */
  function ReadingOf(reachable: bool, views: seq<seq<Operation>>, cursor: Option<nat>): Option<Reading> {
    if reachable then ReadPages(views, cursor) else None
  }

  /** `reconcile`; the result is absent if the run ends without one. */
  method Reconcile(repository: StreamRepository, reachable: bool, views: seq<seq<Operation>>, reasons: set<Reason>,
                   fault: Fault)
    returns (status: Option<R.Status>)
    requires repository.session == repository.committed
    modifies repository
    ensures var reading := ReadingOf(reachable, views, old(repository.committed.cursor));
            && repository.committed == R.Reconcile(old(repository.committed), reading, reasons, fault)
            && (status == Some(R.SUCCEEDED) ==> reading.Some? && repository.committed.cursor == reading.value.cursor)
  {
    hide R.Reconcile, R.ApplyAll, ReadPages;
    ghost var l := repository.committed;
    E.OpeningKeeps(l, reasons);
    repository.commits := 0;
    repository.limit := Limit(fault);
    var started := repository.CreateReconciliation(reasons);
    if !started {
      NothingOpened(l, ReadingOf(reachable, views, l.cursor), reasons, fault);
      return None;
    }
    var reading: Option<Reading> := None;
    if reachable {
      reading := ReadOperations(views, repository.session.cursor);
    }
    if reading.None? {
      status := Unread(repository, l, reasons, fault);
      return;
    }
    status := Record(repository, l, reading.value, reasons, fault);
  }

  /** One delivery of the job, against a broker whose list stands still while it is read. */
  method Attempt(repository: StreamRepository, settings: R.Settings, a: R.Attempt) returns (status: Option<R.Status>)
    requires repository.session == repository.committed
    modifies repository
    ensures repository.committed == R.Try(old(repository.committed), settings, a)
  {
    hide R.Reconcile, R.Visible;
    var window := R.Visible(repository.session, settings, a.log, a.now);
    status := Reconcile(repository, a.reachable, seq(settings.maxPages, _ => window), a.reasons, a.fault);
    assert seq(settings.maxPages, _ => window)
        == seq(settings.maxPages, _ => R.Visible(old(repository.committed), settings, a.log, a.now));
  }

  lemma NothingOpened(l: Ledger, reading: Option<Reading>, reasons: set<Reason>, fault: Fault)
    requires R.RowOf(l).None? && (fault == R.Crash(0) || fault == R.Failure(0))
    ensures R.Reconcile(l, reading, reasons, fault) == l
  {
    hide R.Apply, R.CreatedBy;
  }

  /** A run that cannot read the broker ends after its opening, unless the process dies right there. */
  lemma UnreadEnds(l: Ledger, reasons: set<Reason>, fault: Fault)
    requires fault.NoFault? || |R.Opening(l, reasons)| <= fault.commits
    ensures R.Reconcile(l, None, reasons, fault)
         == if fault == R.Crash(|R.Opening(l, reasons)|) then R.ApplyAll(l, R.Opening(l, reasons))
            else R.Apply(R.ApplyAll(l, R.Opening(l, reasons)), R.Finished(R.FAILED, 0, 0))
  {
    hide R.Apply, R.Opening;
    var opening, failed := R.Opening(l, reasons), R.Finished(R.FAILED, 0, 0);
    ApplyNext(l, opening, failed);
    assert (opening + [failed])[..|opening|] == opening;
    assert (opening + [failed])[..|opening| + 1] == opening + [failed];
  }

  method Unread(repository: StreamRepository, ghost l: Ledger, reasons: set<Reason>, fault: Fault)
    returns (status: Option<R.Status>)
    requires repository.session == repository.committed == R.ApplyAll(l, R.Opening(l, reasons))
    requires repository.commits == |R.Opening(l, reasons)| && repository.limit == Limit(fault)
    requires fault.NoFault? || repository.commits <= fault.commits
    modifies repository
    ensures repository.committed == R.Reconcile(l, None, reasons, fault)
    ensures status != Some(R.SUCCEEDED)
  {
    hide R.Apply, R.ApplyAll, R.Opening, R.Reconcile;
    UnreadEnds(l, reasons, fault);
    if fault.Crash? && fault.commits == repository.commits {
      return None;
    }
    repository.Rollback();
    repository.limit := None;
    var _ := repository.FinishReconciliation(R.FAILED, 0, 0);
    return Some(R.FAILED);
  }

  method Record(repository: StreamRepository, ghost l: Ledger, reading: Reading, reasons: set<Reason>, fault: Fault)
    returns (status: Option<R.Status>)
    requires repository.session == repository.committed == R.ApplyAll(l, R.Opening(l, reasons))
    requires repository.commits == |R.Opening(l, reasons)| && repository.limit == Limit(fault)
    requires fault.NoFault? || repository.commits <= fault.commits
    modifies repository
    ensures repository.committed == R.Reconcile(l, Some(reading), reasons, fault)
    ensures status == Some(R.SUCCEEDED) ==> repository.committed.cursor == reading.cursor
  {
    hide R.CreatedBy, R.Commits, R.Reconcile, R.Apply, R.ApplyAll, R.NewEvents, R.Recorded;
    var operations, account := reading.operations, repository.session.account;
    E.AccountKept(l, R.Opening(l, reasons));
    Beginning(l, reading, reasons);
    var ok := repository.SaveBrokerState();
    if !ok {
      CutOff(l, reading, reasons, fault, R.Opening(l, reasons));
      status := Interrupted(repository, fault, |operations|);
      return;
    }
    var created: seq<AccountEvent> := [];
    for i := 0 to |operations|
      invariant created == R.NewEvents(l.events, operations[..i])
      invariant Underway(repository, l, reasons, fault, created)
    {
      NewEventsStep(l.events, operations, i);
      SoFarCreated(l, reading, reasons, i);
      PrefixOfCommits(l, reading, reasons, created);
      var op := operations[i];
      if EventTypeOf(op).Some? {
        var isNew;
        isNew, ok := RecordEvent(repository, l, reasons, fault, created, R.EventOf(op));
        if !ok {
          CutOff(l, reading, reasons, fault, UpTo(l, reasons, created));
          status := Interrupted(repository, fault, |operations|);
          return;
        }
        if isNew {
          created := created + [R.EventOf(op)];
        }
      }
    }
    SoFarCreated(l, reading, reasons, |operations|);
    PrefixOfCommits(l, reading, reasons, created);
    assert operations[..|operations|] == operations;
    ChangeEvent(l, reading, reasons);
    if created == [] && reasons != {} {
      var isNew;
      isNew, ok := RecordEvent(repository, l, reasons, fault, created, R.ChangeOf(account));
      if !ok {
        CutOff(l, reading, reasons, fault, UpTo(l, reasons, created));
        status := Interrupted(repository, fault, |operations|);
        return;
      }
      if isNew {
        created := created + [R.ChangeOf(account)];
        assert created == [R.ChangeOf(account)];
      }
    }
    status := Complete(repository, l, reading, reasons, fault, created);
  }

  lemma Beginning(l: Ledger, reading: Reading, reasons: set<Reason>)
    ensures R.Opening(l, reasons) < R.Commits(l, reading, reasons)
    ensures UpTo(l, reasons, []) == R.Opening(l, reasons) + [R.StateSaved]
    ensures R.ApplyAll(l, UpTo(l, reasons, [])) == R.Apply(R.ApplyAll(l, R.Opening(l, reasons)), R.StateSaved)
    ensures R.ApplyAll(l, UpTo(l, reasons, [])).events == l.events + []
    ensures R.NewEvents(l.events, []) == [] && reading.operations[..0] == []
  {
    hide R.CreatedBy;
    assert UpTo(l, reasons, []) == R.Opening(l, reasons) + [R.StateSaved];
    ApplyNext(l, R.Opening(l, reasons), R.StateSaved);
    E.RowCommitsOnly(l, R.Opening(l, reasons));
    assert l.events + [] == l.events;
  }

  lemma NewEventsStep(events: seq<AccountEvent>, operations: seq<Operation>, i: nat)
    requires i < |operations|
    ensures var before, op := R.NewEvents(events, operations[..i]), operations[i];
            R.NewEvents(events, operations[..i + 1])
            == if R.Missing(events + before, op) then before + [R.EventOf(op)] else before
  {
    assert operations[..i + 1][..i] == operations[..i];
  }

  lemma ChangeEvent(l: Ledger, reading: Reading, reasons: set<Reason>)
    ensures var created := R.NewEvents(l.events, reading.operations);
            R.CreatedBy(l, reading, reasons)
            == if created == [] && reasons != {} && !R.Recorded(l.events + created, R.ChangeOf(l.account).fingerprint) then
                 [R.ChangeOf(l.account)]
               else created
  {
    assert l.events + [] == l.events;
  }

  method Complete(repository: StreamRepository, ghost l: Ledger, reading: Reading, reasons: set<Reason>, fault: Fault,
                  created: seq<AccountEvent>)
    returns (status: Option<R.Status>)
    requires Underway(repository, l, reasons, fault, created) && created == R.CreatedBy(l, reading, reasons)
    modifies repository
    ensures repository.committed == R.Reconcile(l, Some(reading), reasons, fault)
    ensures status == Some(R.SUCCEEDED) ==> repository.committed.cursor == reading.cursor
  {
    hide R.CreatedBy, R.Commits, R.Reconcile, R.Apply, R.Opening, R.Saved;
    ghost var sofar := UpTo(l, reasons, created);
    ghost var moved := R.CursorSaved(reading.cursor, reading.operations);
    ghost var finished := R.Finished(R.SUCCEEDED, |reading.operations|, |created|);
    PrefixOfCommits(l, reading, reasons, created);
    ApplyNext(l, sofar, moved);
    ApplyNext(l, sofar + [moved], finished);
    assert |R.Opening(l, reasons)| <= |sofar|;
    CursorKept(R.ApplyAll(l, sofar), moved, finished);
    var ok := repository.CommitCursor(reading.cursor, reading.operations);
    if !ok {
      CutOff(l, reading, reasons, fault, sofar);
      status := Interrupted(repository, fault, |reading.operations|);
      return;
    }
    ok := repository.FinishReconciliation(R.SUCCEEDED, |reading.operations|, |created|);
    if !ok {
      CutOff(l, reading, reasons, fault, sofar + [moved]);
      status := Interrupted(repository, fault, |reading.operations|);
      return;
    }
    NotCutOff(l, reading, reasons, fault);
    return Some(R.SUCCEEDED);
  }

  lemma CursorKept(l: Ledger, moved: R.Commit, finished: R.Commit)
    requires moved.CursorSaved? && finished.Finished?
    ensures R.Apply(R.Apply(l, moved), finished).cursor == moved.cursor
  {
  }
}
