/**
 * Cycles triggered by account events: the reconciliations of all accounts, the job queue and the run table.
 *
 * A reconciliation that stored events queues one automation job, whose correlation id is made of the reconciliation's
 * row and the trigger. As an account's reconciliations share one row, they share these ids.
 */
module EventTriggers {
  import opened Wrappers
  import opened Operations
  import opened Reconciliation
  import A = Automation
  import Q = AutomationProperties

  /** Row ids are given out for the whole table of reconciliations, `nextRow` next. */
  datatype World = World(ledgers: map<string, Ledger>, nextRow: nat, queue: set<A.CorrelationId>, runs: A.Runs)

  const NOTHING := World(map[], 0, {}, A.NONE)

  datatype Action =
    /** `queues`: the trigger is enabled in the settings, and the job gets to the queueing. */
    | ReconcileAccount(account: string, settings: Settings, attempt: Attempt, queues: bool)
    /** A worker takes a queued job; `again`: it stays to be delivered once more. */
    | Work(correlation: A.CorrelationId, cycle: A.Cycle, now: int, fault: A.Fault, again: bool)
    /** Scheduled and manual runs, retries by run id, and the recovery of stale runs. */
    | Other(action: A.Action)

  function LedgerOf(w: World, account: string): Ledger {
    (if account in w.ledgers then w.ledgers[account] else NewLedger(account)).(nextRow := w.nextRow)
  }

  predicate IsDeposit(e: AccountEvent) {
    e.fingerprint.OfOperation? && e.fingerprint.eventType.DEPOSIT_DETECTED?
  }

  function TriggerFor(created: seq<AccountEvent>): A.Trigger {
    if exists e :: e in created && IsDeposit(e) then A.DEPOSIT_DETECTED else A.ACCOUNT_CHANGE
  }

  /** What a successful reconciliation reports. */
  function Reported(l: Ledger, settings: Settings, a: Attempt): seq<AccountEvent> {
    var reading := ReadLog(l, settings, a.log, a.now);
    if Succeeds(l, settings, a) && reading.Some? then CreatedBy(l, reading.value, a.reasons) else []
  }

  /** The job a reconciliation queues. */
  function Queued(l: Ledger, settings: Settings, a: Attempt): Option<A.CorrelationId> {
    var e, reported := Try(l, settings, a), Reported(l, settings, a);
    if reported != [] && RowOf(e).Some? then Some(A.EventId(RowOf(e).value.id, TriggerFor(reported))) else None
  }

  predicate NamesEvent(a: A.Action) {
    (a.Deliver? || a.Request?) && a.correlation.EventId?
  }

  function Step(w: World, a: Action): World {
    match a
    case ReconcileAccount(account, settings, attempt, queues) =>
      var l := LedgerOf(w, account);
      var e, job := Try(l, settings, attempt), Queued(l, settings, attempt);
      World(w.ledgers[account := e], e.nextRow, if queues && job.Some? then w.queue + {job.value} else w.queue, w.runs)
    case Work(correlation, cycle, now, fault, again) =>
      if correlation !in w.queue then w
      else w.(queue := if again then w.queue else w.queue - {correlation},
              runs := A.Step(w.runs, A.Deliver(correlation, None, cycle, now, fault)))
    case Other(action) => if NamesEvent(action) then w else w.(runs := A.Step(w.runs, action))
  }

  function Run(w: World, history: seq<Action>): World {
    if history == [] then w else Step(Run(w, history[..|history| - 1]), history[|history| - 1])
  }

  function RowIn(w: World, account: string): Option<Row> {
    if account in w.ledgers then RowOf(w.ledgers[account]) else None
  }

  // ------------------------------------------------------------- one reconciliation row per account

  /** What commits do to the account's row: created once, under a new id, then kept. */
  ghost predicate RowKept(l: Ledger, e: Ledger) {
    && e.account == l.account
    && (if RowOf(l).Some? then RowOf(e).Some? && RowOf(e).value.id == RowOf(l).value.id && e.nextRow == l.nextRow
        else if RowOf(e).Some? then RowOf(e).value.id == l.nextRow && e.nextRow == l.nextRow + 1
        else e.nextRow == l.nextRow)
  }

  /** A row is only started where there is none. */
  ghost predicate StartsOnce(l: Ledger, commits: seq<Commit>) {
    && (forall i :: 0 < i < |commits| ==> !commits[i].Started?)
    && (commits != [] && commits[0].Started? ==> RowOf(l).None?)
  }

  lemma ApplyKeepsRow(l: Ledger, e: Ledger, c: Commit)
    requires RowKept(l, e) && (c.Started? ==> e == l && RowOf(l).None?)
    ensures RowKept(l, Apply(e, c))
  {
    hide Latest;
  }

  lemma {:induction false} RowAlong(l: Ledger, commits: seq<Commit>)
    requires StartsOnce(l, commits)
    ensures RowKept(l, ApplyAll(l, commits))
  {
    hide RowKept, RowOf, Apply;
    if commits == [] {
      RowUnchanged(l);
    } else {
      var n := |commits| - 1;
      RowAlong(l, commits[..n]);
      ApplyKeepsRow(l, ApplyAll(l, commits[..n]), commits[n]);
    }
  }

  lemma RowUnchanged(l: Ledger)
    ensures RowKept(l, l)
  {
  }

  lemma CommitsStartOnce(l: Ledger, reading: Reading, reasons: set<Reason>, n: nat)
    requires n <= |Commits(l, reading, reasons)|
    ensures StartsOnce(l, Commits(l, reading, reasons)[..n])
    ensures StartsOnce(l, Commits(l, reading, reasons)[..n] + [Finished(FAILED, |reading.operations|, 0)])
  {
    hide CreatedBy, Latest;
  }

  lemma TryKeepsRow(l: Ledger, settings: Settings, a: Attempt)
    ensures RowKept(l, Try(l, settings, a))
  {
    hide RowKept, RowOf, ApplyAll, Commits, ReadLog, StartsOnce, Opening;
    var reading := ReadLog(l, settings, a.log, a.now);
    if a.reachable && reading.Some? {
      var commits := Commits(l, reading.value, a.reasons);
      assert commits[..|commits|] == commits && commits[..0] == [];
      RowAlong(l, []) by { CommitsStartOnce(l, reading.value, a.reasons, 0); }
      forall n: nat | n <= |commits| ensures RowKept(l, ApplyAll(l, commits[..n])) {
        CommitsStartOnce(l, reading.value, a.reasons, n);
        RowAlong(l, commits[..n]);
      }
      if a.fault.Failure? && a.fault.commits <= |commits| {
        CommitsStartOnce(l, reading.value, a.reasons, a.fault.commits);
        RowAlong(l, commits[..a.fault.commits] + [Finished(FAILED, |reading.value.operations|, 0)]);
      }
    } else {
      UnreadableKeepsRow(l, a.reasons, a.fault);
    }
  }

  lemma UnreadableKeepsRow(l: Ledger, reasons: set<Reason>, fault: Fault)
    ensures RowKept(l, Reconcile(l, None, reasons, fault))
  {
    hide RowKept, ApplyAll;
    var commits := Opening(l, reasons) + [Finished(FAILED, 0, 0)];
    RowAlong(l, []);
    RowAlong(l, commits);
    if fault.Crash? {
      RowAlong(l, First(commits, fault.commits));
    }
  }

  // ------------------------------------------------------------- the ids in the queue

  /** The id belongs to the row of an account. */
  ghost predicate OfAccount(w: World, id: A.CorrelationId, account: string) {
    && id.EventId? && id.trigger in {A.DEPOSIT_DETECTED, A.ACCOUNT_CHANGE}
    && account in w.ledgers && RowIn(w, account).Some? && RowIn(w, account).value.id == id.reconciliation
  }

  ghost predicate Owned(w: World, id: A.CorrelationId) {
    exists account :: account in w.ledgers && OfAccount(w, id, account)
  }

  ghost predicate SameRow(w: World, a: string, b: string) {
    RowIn(w, a).Some? && RowIn(w, b).Some? && RowIn(w, a).value.id == RowIn(w, b).value.id
  }

  /** Every ledger is of its account, and no two accounts share a row. */
  ghost predicate RowsValid(w: World) {
    && (forall account :: account in w.ledgers ==>
          w.ledgers[account].account == account
          && (RowIn(w, account).Some? ==> RowIn(w, account).value.id < w.nextRow))
    && (forall a, b :: a in w.ledgers && b in w.ledgers && SameRow(w, a, b) ==> a == b)
  }

  ghost predicate Valid(w: World) {
    && Q.Valid(w.runs) && RowsValid(w)
    && (forall id :: id in w.queue ==> Owned(w, id))
  }

  /** Rows stay with their accounts. */
  ghost predicate RowsKept(w: World, e: World) {
    forall account :: account in w.ledgers && RowIn(w, account).Some? ==>
      account in e.ledgers && RowIn(e, account).Some? && RowIn(e, account).value.id == RowIn(w, account).value.id
  }

  lemma OwnedStays(w: World, e: World, id: A.CorrelationId)
    requires RowsKept(w, e) && Owned(w, id)
    ensures Owned(e, id)
  {
    var account :| account in w.ledgers && OfAccount(w, id, account);
    assert OfAccount(e, id, account);
  }

  /** One account's ledger changes, its row being kept or new: so are all rows. */
  lemma LedgerChanged(w: World, e: World, account: string)
    requires RowsValid(w) && RowKept(LedgerOf(w, account), LedgerOf(e, account))
    requires account in e.ledgers && e.ledgers == w.ledgers[account := LedgerOf(e, account)]
    ensures RowsKept(w, e) && RowsValid(e)
  {
    hide RowOf;
    SameRowOf(w, account);
    forall x | x in w.ledgers ensures RowIn(e, x) == if x == account then RowOf(LedgerOf(e, account)) else RowIn(w, x) {
    }
  }

  lemma SameRowOf(w: World, account: string)
    requires RowsValid(w)
    ensures RowOf(LedgerOf(w, account)) == RowIn(w, account) && LedgerOf(w, account).account == account
  {
  }

  lemma ReconcileRows(w: World, a: Action)
    requires Valid(w) && a.ReconcileAccount?
    ensures RowsKept(w, Step(w, a)) && Valid(Step(w, a))
  {
    hide Try, Q.Valid, Owned, Queued, RowsValid, RowKept, RowsKept, RowOf;
    var l, e := LedgerOf(w, a.account), Step(w, a);
    TryKeepsRow(l, a.settings, a.attempt);
    assert LedgerOf(e, a.account) == Try(l, a.settings, a.attempt);
    LedgerChanged(w, e, a.account);
    forall id | id in e.queue ensures Owned(e, id) {
      if id in w.queue {
        OwnedStays(w, e, id);
      } else {
        QueuedIs(l, a.settings, a.attempt);
        OwnedBy(e, id, a.account);
      }
    }
  }

  lemma QueuedIs(l: Ledger, settings: Settings, a: Attempt)
    ensures var id, e := Queued(l, settings, a), Try(l, settings, a);
            id.Some? ==>
              && id.value.EventId? && id.value.trigger in {A.DEPOSIT_DETECTED, A.ACCOUNT_CHANGE}
              && RowOf(e).Some? && id.value.reconciliation == RowOf(e).value.id
  {
    hide Try, Reported;
  }

  lemma OwnedBy(w: World, id: A.CorrelationId, account: string)
    requires OfAccount(w, id, account)
    ensures Owned(w, id)
  {
  }

  lemma StepValid(w: World, a: Action)
    requires Valid(w)
    ensures RowsKept(w, Step(w, a)) && Valid(Step(w, a))
  {
    hide Q.Valid, Owned, A.Step, Try, Queued;
    match a
    case ReconcileAccount(_, _, _, _) => ReconcileRows(w, a);
    case Work(correlation, cycle, now, fault, again) =>
      Q.StepValid(w.runs, A.Deliver(correlation, None, cycle, now, fault));
      forall id | id in Step(w, a).queue ensures Owned(Step(w, a), id) {
        OwnedStays(w, Step(w, a), id);
      }
    case Other(action) =>
      Q.StepValid(w.runs, action);
      forall id | id in Step(w, a).queue ensures Owned(Step(w, a), id) {
        OwnedStays(w, Step(w, a), id);
      }
  }

  /** Every queued id names the row of exactly one account, and an account's row is the same for all its life. */
  lemma {:induction false} RunKeepsRows(w: World, history: seq<Action>)
    requires Valid(w)
    ensures Valid(Run(w, history)) && RowsKept(w, Run(w, history))
  {
    hide Step, Valid;
    if history != [] {
      var init := history[..|history| - 1];
      RunKeepsRows(w, init);
      StepValid(Run(w, init), history[|history| - 1]);
    }
  }

  lemma NothingValid()
    ensures Valid(NOTHING)
  {
    hide Q.Valid;
    Q.NoneValid();
  }

  /**
   * The queue, exactly: a reconciliation adds its job if it gets to the queueing, and a worker takes the job it works, unless
   * that is to be delivered again.
   */
  lemma QueueExactly(w: World, a: Action, id: A.CorrelationId)
    ensures id in Step(w, a).queue <==>
              match a
              case ReconcileAccount(account, settings, attempt, queues) =>
                id in w.queue || (queues && Queued(LedgerOf(w, account), settings, attempt) == Some(id))
              case Work(correlation, _, _, _, again) => id in w.queue && (id != correlation || again)
              case Other(_) => id in w.queue
  {
    hide Try, Queued, A.Step;
  }

  // ------------------------------------------------------------- one cycle per account and trigger

  /** A worker takes a job of this account and trigger into the pipeline. */
  ghost predicate Enters(w: World, a: Action, account: string, trigger: A.Trigger) {
    && a.Work? && a.correlation in w.queue && OfAccount(w, a.correlation, account) && a.correlation.trigger == trigger
    && !A.Known(w.runs, a.correlation) && A.MarkedRunning in A.Made(a.cycle, a.fault)
  }

  ghost function Cycles(history: seq<Action>, account: string, trigger: A.Trigger): nat {
    if history == [] then 0
    else
      var init := history[..|history| - 1];
      Cycles(init, account, trigger) + if Enters(Run(NOTHING, init), history[|history| - 1], account, trigger) then 1 else 0
  }

  /** The run table's view of an action. */
  function RunsAction(w: World, a: Action): Option<A.Action> {
    match a
    case ReconcileAccount(_, _, _, _) => None
    case Work(correlation, cycle, now, fault, _) =>
      if correlation in w.queue then Some(A.Deliver(correlation, None, cycle, now, fault)) else None
    case Other(action) => if NamesEvent(action) then None else Some(action)
  }

  function RunsHistory(w: World, history: seq<Action>): seq<A.Action> {
    if history == [] then []
    else
      var init := history[..|history| - 1];
      var a := RunsAction(Run(w, init), history[|history| - 1]);
      RunsHistory(w, init) + if a.Some? then [a.value] else []
  }

  lemma {:induction false} HistoryRefines(w: World, history: seq<Action>)
    ensures Run(w, history).runs == A.Run(w.runs, RunsHistory(w, history))
  {
    hide A.Step, Try, Queued;
    if history != [] {
      var init, a := history[..|history| - 1], history[|history| - 1];
      HistoryRefines(w, init);
      var ra := RunsAction(Run(w, init), a);
      if ra.Some? {
        assert (RunsHistory(w, init) + [ra.value])[..|RunsHistory(w, init)|] == RunsHistory(w, init);
      } else {
        assert RunsHistory(w, init) + [] == RunsHistory(w, init);
      }
    }
  }

  /** `row`: the id of the account's row, if it ever gets one. */
  lemma {:induction false} CyclesAreEntries(history: seq<Action>, account: string, trigger: A.Trigger, row: nat)
    requires RowIn(Run(NOTHING, history), account).Some? ==> RowIn(Run(NOTHING, history), account).value.id == row
    ensures Cycles(history, account, trigger) <= Q.Entries(RunsHistory(NOTHING, history), A.EventId(row, trigger))
  {
    hide Step, Valid, A.Step, A.Made, Owned;
    if history != [] {
      var init, a := history[..|history| - 1], history[|history| - 1];
      var w := Run(NOTHING, init);
      NothingValid();
      RunKeepsRows(NOTHING, init);
      StepValid(w, a);
      LedgerHasRow(w, account);
      CyclesAreEntries(init, account, trigger, row);
      HistoryRefines(NOTHING, init);
      var before, ra := RunsHistory(NOTHING, init), RunsAction(w, a);
      if ra.Some? {
        assert (before + [ra.value])[..|before|] == before;
      } else {
        assert before + [] == before;
      }
    }
  }

  lemma LedgerHasRow(w: World, account: string)
    ensures RowIn(w, account).Some? ==> account in w.ledgers
  {
  }

  /**
   * In every history of reconciliations of all accounts, queued and redelivered jobs, crashes and other runs, an
   * account's events take at most one cycle of each trigger into the pipeline: one for deposits and one for all other
   * changes, over the account's whole life.
   */
  lemma OneCyclePerTrigger(history: seq<Action>, account: string, trigger: A.Trigger)
    ensures Cycles(history, account, trigger) <= 1
  {
    hide Run, Cycles;
    var row := RowIn(Run(NOTHING, history), account);
    var id := if row.Some? then row.value.id else 0;
    CyclesAreEntries(history, account, trigger, id);
    Q.EnteredAtMostOnce(RunsHistory(NOTHING, history), A.EventId(id, trigger));
  }

  /** No account's trigger takes another account's place. */
  lemma OneAccountPerId(history: seq<Action>, id: A.CorrelationId, a: string, b: string)
    requires OfAccount(Run(NOTHING, history), id, a) && OfAccount(Run(NOTHING, history), id, b)
    ensures a == b
  {
    hide Run, Q.Valid;
    NothingValid();
    RunKeepsRows(NOTHING, history);
    assert SameRow(Run(NOTHING, history), a, b);
  }

  /** Working a job of an event changes the runs exactly if it is queued and its id has no run yet. */
  lemma JobStartsRunExactly(w: World, id: A.CorrelationId, cycle: A.Cycle, now: int, fault: A.Fault, again: bool)
    requires Q.Valid(w.runs)
    ensures Step(w, Work(id, cycle, now, fault, again)).runs != w.runs <==> id in w.queue && !A.Known(w.runs, id)
  {
    hide A.Made, A.ApplyAll, Q.RowValid;
    Q.IdsBelow(w.runs);
    var deliver := A.Deliver(id, None, cycle, now, fault);
    if id in w.queue && !A.Known(w.runs, id) {
      assert w.runs.nextId in A.Step(w.runs, deliver).rows;
    }
  }

  /**
   * Once a run of an account's trigger exists, whatever became of it, the account's later events of that kind start
   * none: each reconciliation that reports them queues the same id again, and the job that carries it changes no run.
   */
  lemma LaterTriggersIgnored(w: World, id: A.CorrelationId, account: string, history: seq<Action>,
                             settings: Settings, attempt: Attempt, cycle: A.Cycle, now: int, fault: A.Fault, again: bool)
    requires Valid(w) && OfAccount(w, id, account) && A.Known(w.runs, id)
    ensures var e := Run(w, history);
            var job := Queued(LedgerOf(e, account), settings, attempt);
            && (job.Some? && job.value.trigger == id.trigger ==> job == Some(id))
            && Step(e, Work(id, cycle, now, fault, again)).runs == e.runs
  {
    hide Run, Q.Valid, Try, Owned, A.Step, A.Made, Queued;
    var e := Run(w, history);
    RunKeepsRows(w, history);
    HistoryRefines(w, history);
    Q.DuplicatesIgnored(w.runs, RunsHistory(w, history), id, cycle, now, fault);
    var l := LedgerOf(e, account);
    TryKeepsRow(l, settings, attempt);
    QueuedIs(l, settings, attempt);
    assert RowOf(l) == RowIn(e, account);
  }
}
