/** The durable inbox of broker stream events: storing, claiming, completing, failing, retrying, recovering. */
module Inbox {
  import opened Wrappers

  datatype EventKind = PORTFOLIO_UPDATED | POSITIONS_UPDATED | USER_TRADE_EXECUTED | SUBSCRIPTION_STATUS | PING

  datatype Status = PENDING | PROCESSING | PROCESSED | IGNORED | FAILED | DEAD_LETTER

  /** `key` is the dedupe key, a hash of the broker's event, taken as injective. */
  datatype Event = Event(key: string, kind: EventKind, status: Status, attempts: nat, processedAt: Option<int>)

  /** `queue` holds the ids of the queued `process_broker_stream_event` jobs. */
  datatype State = State(events: map<nat, Event>, nextId: nat, queue: multiset<nat>)

  const EMPTY := State(map[], 0, multiset{})

  /**
   * How one delivery of a job goes: the handler's result, and where a timeout or a crash hits it. An exception that
   * escapes while the event is claimed, its failure recorded or its job queued again ends the job for good.
   */
  datatype Outcome =
    | Completes
    | Raises
    | TimesOutBeforeClaim
    | TimesOutInHandler
    | TimesOutAfterCommit
    | DiesBeforeClaim
    | DiesInHandler
    | DiesAfterCommit
    | ClaimRaises
    | FailRaises
    | RequeueRaises

  /** `queued` is false when the process dies between the commit and the queueing of its job. */
  datatype Action =
    | Persist(key: string, kind: EventKind, queued: bool)
    | Deliver(id: nat, outcome: Outcome, now: int)
    | Retry(id: nat, queued: bool)
    | Startup
    | Cleanup(ids: set<nat>, before: int)

  predicate Final(status: Status) {
    status in {PROCESSED, IGNORED, DEAD_LETTER}
  }

  // ------------------------------------------------------------- repository operations

  predicate KeyStored(s: State, key: string) {
    exists id :: id in s.events && s.events[id].key == key
  }

  /** `persist_event`; a new event gets its job. */
  function Persisted(s: State, key: string, kind: EventKind, queued: bool): State {
    if KeyStored(s, key) then s
    else State(s.events[s.nextId := Event(key, kind, PENDING, 0, None)], s.nextId + 1,
               if queued then s.queue + multiset{s.nextId} else s.queue)
  }

  predicate Claimable(e: Event, max: nat) {
    e.status in {PENDING, FAILED} && e.attempts < max
  }

  function ClaimOf(e: Event): Event {
    e.(status := PROCESSING, attempts := e.attempts + 1)
  }

  /** Only updates of the account and its trades lead to a reconciliation. */
  function CompletionOf(e: Event, now: int): Event {
    e.(status := if e.kind in {SUBSCRIPTION_STATUS, PING} then IGNORED else PROCESSED, processedAt := Some(now))
  }

  function FailureOf(e: Event, max: nat): Event {
    e.(status := if e.attempts >= max then DEAD_LETTER else FAILED)
  }

  /** What a delivery does to its event. A timeout fails the event whatever its state. */
  function Delivered(e: Event, max: nat, outcome: Outcome, now: int): Event {
    if outcome.TimesOutBeforeClaim? then FailureOf(e, max)
    else if outcome in {DiesBeforeClaim, ClaimRaises} || !Claimable(e, max) then e
    else
      match outcome
      case Completes => CompletionOf(ClaimOf(e), now)
      case DiesAfterCommit => CompletionOf(ClaimOf(e), now)
      case Raises => FailureOf(ClaimOf(e), max)
      case TimesOutInHandler => FailureOf(ClaimOf(e), max)
      case TimesOutAfterCommit => FailureOf(CompletionOf(ClaimOf(e), now), max)
      case DiesInHandler => ClaimOf(e)
      case FailRaises => ClaimOf(e)
      case RequeueRaises => FailureOf(ClaimOf(e), max)
  }

  predicate Dies(outcome: Outcome) {
    outcome in {DiesBeforeClaim, DiesInHandler, DiesAfterCommit}
  }

  predicate Escapes(outcome: Outcome) {
    outcome in {ClaimRaises, FailRaises, RequeueRaises}
  }

  predicate TimesOut(outcome: Outcome) {
    outcome in {TimesOutBeforeClaim, TimesOutInHandler, TimesOutAfterCommit}
  }

  /** The job counts as processed when the handler completed; otherwise a failed event gets another job. */
  predicate Requeued(before: Event, after: Event, max: nat, outcome: Outcome) {
    && after.status.FAILED? && !Escapes(outcome)
    && (TimesOut(outcome) || outcome.Raises? || !Claimable(before, max))
  }

  /** A dying worker leaves its job in the queue. */
  function Delivery(s: State, max: nat, id: nat, outcome: Outcome, now: int): State {
    var queue := if Dies(outcome) then s.queue else s.queue - multiset{id};
    if id !in s.events then s.(queue := queue)
    else
      var e := Delivered(s.events[id], max, outcome, now);
      var again := !Dies(outcome) && Requeued(s.events[id], e, max, outcome);
      s.(events := s.events[id := e], queue := if again then queue + multiset{id} else queue)
  }

  /** `retry_event`, allowed for dead letters only: the attempts are not reset. */
  function Retried(s: State, id: nat, queued: bool): State {
    if id in s.events && s.events[id].status.DEAD_LETTER? then
      s.(events := s.events[id := s.events[id].(status := PENDING)],
         queue := if queued then s.queue + multiset{id} else s.queue)
    else s
  }

  function Recovered(e: Event): Event {
    if e.status.PROCESSING? then e.(status := PENDING) else e
  }

  function PendingIds(events: map<nat, Event>): set<nat> {
    set id | id in events && events[id].status.PENDING?
  }

  /** `startup_recovery`, then a job for every pending event. */
  function StartedUp(s: State): State {
    var events := map id | id in s.events :: Recovered(s.events[id]);
    s.(events := events, queue := s.queue + multiset(PendingIds(events)))
  }

  predicate Removable(e: Event, before: int) {
    e.status in {PROCESSED, IGNORED} && e.processedAt.Some? && e.processedAt.value < before
  }

  /** `cleanup`: `ids` is the batch the database picks; rows that do not qualify are never in it. */
  function CleanedUp(s: State, ids: set<nat>, before: int): State {
    s.(events := map id | id in s.events && !(id in ids && Removable(s.events[id], before)) :: s.events[id])
  }

  function Step(s: State, max: nat, a: Action): State {
    match a
    case Persist(key, kind, queued) => Persisted(s, key, kind, queued)
    case Deliver(id, outcome, now) => Delivery(s, max, id, outcome, now)
    case Retry(id, queued) => Retried(s, id, queued)
    case Startup => StartedUp(s)
    case Cleanup(ids, before) => CleanedUp(s, ids, before)
  }

  function Run(s: State, max: nat, actions: seq<Action>): State {
    if actions == [] then s
    else Step(Run(s, max, actions[..|actions| - 1]), max, actions[|actions| - 1])
  }
}
