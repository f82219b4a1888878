/**
 * Account reconciliation as a protocol over one account's durable rows.
 *
 * A run makes a list of database commits. A crash keeps those already made; an exception keeps them too, and
 * then records the failure.
 */
module Reconciliation {
  import opened Wrappers
  import opened Operations

  datatype Reason = PORTFOLIO_CHANGED | POSITIONS_CHANGED | USER_TRADE | STREAM_RECONNECTED | MANUAL

  /** Hashes of (provider, target, account, operation, type) and of (account, correlation): taken as injective. */
  datatype Fingerprint = OfOperation(id: string, eventType: EventType) | OfChange(correlation: Correlation)

  /** Hash of account and state key, taken as injective; the state key is `account-reconciliation:` and a hash of the account. */
  datatype Correlation = Correlation(account: string, stateKey: string)

  function StateKey(account: string): string {
    "account-reconciliation:" + account
  }

  /** The correlation id the job gives every reconciliation of an account. */
  function JobCorrelation(account: string): Correlation {
    Correlation(account, StateKey(account))
  }

  datatype AccountEvent = AccountEvent(fingerprint: Fingerprint, operation: Option<Operation>)

  datatype Status = RUNNING | SUCCEEDED | FAILED

  datatype Row = Row(id: nat, reasons: set<Reason>, status: Status, operations: nat, events: nat)

  /** The rows of one account; `rows` holds its reconciliations by their unique correlation id. */
  datatype Ledger = Ledger(
    account: string,
    cursor: Option<nat>,
    lastTime: Option<int>,
    events: seq<AccountEvent>,
    rows: map<Correlation, Row>,
    nextRow: nat,
    snapshots: nat)

  function NewLedger(account: string): Ledger {
    Ledger(account, None, None, [], map[], 0, 0)
  }

  /** The row `create_reconciliation` finds for the job. */
  function RowOf(l: Ledger): Option<Row> {
    var correlation := JobCorrelation(l.account);
    if correlation in l.rows then Some(l.rows[correlation]) else None
  }

  function WithRow(l: Ledger, row: Row): Ledger {
    l.(rows := l.rows[JobCorrelation(l.account) := row])
  }

  // ------------------------------------------------------------- commits

  datatype Commit =
    | Started(reasons: set<Reason>)
    | StateSaved
    | EventSaved(event: AccountEvent)
    | CursorSaved(cursor: Option<nat>, operations: seq<Operation>)
    | Finished(status: Status, count: nat, created: nat)

  /** `max(item.date for item in operations)` */
  function Latest(operations: seq<Operation>): Option<int> {
    if operations == [] then None
    else
      var before, date := Latest(operations[..|operations| - 1]), operations[|operations| - 1].date;
      if before.Some? && before.value > date then before else Some(date)
  }

  function Apply(l: Ledger, c: Commit): Ledger {
    match c
    case Started(reasons) => WithRow(l, Row(l.nextRow, reasons, RUNNING, 0, 0)).(nextRow := l.nextRow + 1)
    case StateSaved => l.(snapshots := l.snapshots + 1)
    case EventSaved(event) => l.(events := l.events + [event])
    case CursorSaved(cursor, operations) =>
      var latest := Latest(operations);
      l.(cursor := cursor, lastTime := if latest.Some? then latest else l.lastTime)
    case Finished(status, count, created) =>
      if RowOf(l).None? then l
      else WithRow(l, RowOf(l).value.(status := status, operations := count, events := created))
  }

  function ApplyAll(l: Ledger, commits: seq<Commit>): Ledger {
    if commits == [] then l
    else Apply(ApplyAll(l, commits[..|commits| - 1]), commits[|commits| - 1])
  }

  // ------------------------------------------------------------- one run

  predicate Recorded(events: seq<AccountEvent>, mark: Fingerprint) {
    exists i :: 0 <= i < |events| && events[i].fingerprint == mark
  }

  function EventOf(op: Operation): AccountEvent
    requires EventTypeOf(op).Some?
  {
    AccountEvent(OfOperation(op.id, EventTypeOf(op).value), Some(op))
  }

  function ChangeOf(account: string): AccountEvent {
    AccountEvent(OfChange(JobCorrelation(account)), None)
  }

  /** An operation whose event is missing from `events`. */
  predicate Missing(events: seq<AccountEvent>, op: Operation) {
    EventTypeOf(op).Some? && !Recorded(events, EventOf(op).fingerprint)
  }

  /** What the loop over the operations adds to `events`. */
  function NewEvents(events: seq<AccountEvent>, operations: seq<Operation>): seq<AccountEvent> {
    if operations == [] then []
    else
      var before, op := NewEvents(events, operations[..|operations| - 1]), operations[|operations| - 1];
      if Missing(events + before, op) then before + [EventOf(op)] else before
  }

  function Saved(events: seq<AccountEvent>): (commits: seq<Commit>)
    ensures |commits| == |events| && forall i :: 0 <= i < |commits| ==> commits[i] == EventSaved(events[i])
  {
    seq(|events|, i requires 0 <= i < |events| => EventSaved(events[i]))
  }

  /** `create_reconciliation` returns the row that exists, unchanged. */
  function Opening(l: Ledger, reasons: set<Reason>): seq<Commit> {
    if RowOf(l).None? then [Started(reasons)] else []
  }

  function CreatedBy(l: Ledger, reading: Reading, reasons: set<Reason>): seq<AccountEvent> {
    var created := NewEvents(l.events, reading.operations);
    var change := ChangeOf(l.account);
    if created == [] && reasons != {} && !Recorded(l.events, change.fingerprint) then [change] else created
  }

  /** The commits of a run in which nothing goes wrong. */
  function Commits(l: Ledger, reading: Reading, reasons: set<Reason>): seq<Commit> {
    var created := CreatedBy(l, reading, reasons);
    Opening(l, reasons) + [StateSaved] + Saved(created)
    + [CursorSaved(reading.cursor, reading.operations), Finished(SUCCEEDED, |reading.operations|, |created|)]
  }

  /** Where a run ends: after so many commits by a dying process, or by an exception. */
  datatype Fault = NoFault | Crash(commits: nat) | Failure(commits: nat)

  function First<T>(xs: seq<T>, n: nat): seq<T> {
    if n <= |xs| then xs[..n] else xs
  }

  /** `reading` is absent when the broker cannot be read: account unknown, call failed, or too many pages. */
  function Reconcile(l: Ledger, reading: Option<Reading>, reasons: set<Reason>, fault: Fault): Ledger {
    var opening := Opening(l, reasons);
    var commits := if reading.Some? then Commits(l, reading.value, reasons) else opening + [Finished(FAILED, 0, 0)];
    match fault
    case NoFault => ApplyAll(l, commits)
    case Crash(n) => ApplyAll(l, First(commits, n))
    case Failure(n) =>
      if n < |opening| || n >= |commits| || reading.None? then
        ApplyAll(l, if n < |opening| then [] else commits)
      else
        ApplyAll(l, commits[..n] + [Finished(FAILED, |reading.value.operations|, 0)])
  }

  // ------------------------------------------------------------- what a run reads

  /** The in-memory broker lists everything; a dated one answers with what lies between two times. */
  datatype Broker = Listing | Dated

  function Between(log: seq<Operation>, from: int, to: int): seq<Operation> {
    if log == [] then []
    else
      var op := log[|log| - 1];
      Between(log[..|log| - 1], from, to) + if from <= op.date <= to then [op] else []
  }

  datatype Settings = Settings(broker: Broker, lookback: nat, maxPages: nat)

  /** `from_` */
  function WindowStart(l: Ledger, settings: Settings, now: int): int {
    if l.lastTime.Some? then l.lastTime.value else now - settings.lookback
  }

  function Visible(l: Ledger, settings: Settings, log: seq<Operation>, now: int): seq<Operation> {
    if settings.broker.Listing? then log else Between(log, WindowStart(l, settings, now), now)
  }

  function ReadLog(l: Ledger, settings: Settings, log: seq<Operation>, now: int): Option<Reading> {
    ReadPages(seq(settings.maxPages, _ => Visible(l, settings, log, now)), l.cursor)
  }

  /** One delivery of the job: the broker's list and the clock then, and what went wrong. */
  datatype Attempt = Attempt(log: seq<Operation>, now: int, reachable: bool, reasons: set<Reason>, fault: Fault)

  function Try(l: Ledger, settings: Settings, a: Attempt): Ledger {
    Reconcile(l, if a.reachable then ReadLog(l, settings, a.log, a.now) else None, a.reasons, a.fault)
  }

  function Run(l: Ledger, settings: Settings, attempts: seq<Attempt>): Ledger {
    if attempts == [] then l
    else Try(Run(l, settings, attempts[..|attempts| - 1]), settings, attempts[|attempts| - 1])
  }

  /** A run that reached the broker, fitted the page bound and met no fault. */
  predicate Succeeds(l: Ledger, settings: Settings, a: Attempt) {
    a.reachable && ReadLog(l, settings, a.log, a.now).Some? && a.fault == NoFault
  }
}
