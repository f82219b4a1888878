/** What each call does to the inbox, told by statuses, attempts and jobs alone. */
module InboxOutcomes {
  import opened Wrappers
  import opened Inbox
  import opened InboxProperties

  /** Waiting or failed, with attempts left. */
  predicate CanBeClaimed(e: Event, max: nat) {
    (e.status == PENDING || e.status == FAILED) && e.attempts < max
  }

  /** Where an attempt that did not complete leaves its event. */
  function Unfinished(attempts: nat, max: nat): Status {
    if attempts < max then FAILED else DEAD_LETTER
  }

  /** Account updates and trades are processed, everything else is ignored. */
  function Finished(kind: EventKind): Status {
    match kind
    case PORTFOLIO_UPDATED => PROCESSED
    case POSITIONS_UPDATED => PROCESSED
    case USER_TRADE_EXECUTED => PROCESSED
    case SUBSCRIPTION_STATUS => IGNORED
    case PING => IGNORED
  }

  /** The event after a delivery that claims it. */
  function AfterClaim(e: Event, max: nat, outcome: Outcome, now: int): Event {
    var n := e.attempts + 1;
    match outcome
    case Completes => Event(e.key, e.kind, Finished(e.kind), n, Some(now))
    case DiesAfterCommit => Event(e.key, e.kind, Finished(e.kind), n, Some(now))
    case TimesOutAfterCommit => Event(e.key, e.kind, Unfinished(n, max), n, Some(now))
    case Raises => Event(e.key, e.kind, Unfinished(n, max), n, e.processedAt)
    case TimesOutInHandler => Event(e.key, e.kind, Unfinished(n, max), n, e.processedAt)
    case RequeueRaises => Event(e.key, e.kind, Unfinished(n, max), n, e.processedAt)
    case DiesInHandler => Event(e.key, e.kind, PROCESSING, n, e.processedAt)
    case FailRaises => Event(e.key, e.kind, PROCESSING, n, e.processedAt)
    case _ => e
  }

  /** The worker died, and its job stays in the queue. */
  predicate JobStays(outcome: Outcome) {
    outcome == DiesBeforeClaim || outcome == DiesInHandler || outcome == DiesAfterCommit
  }

  /** The job ends in an orderly way, so that it queues another one for an event left failed. */
  predicate QueuesAgain(outcome: Outcome) {
    || outcome == Raises || outcome == TimesOutBeforeClaim || outcome == TimesOutInHandler || outcome == TimesOutAfterCommit
  }

  /**
   * A delivery, exactly: a timeout before the claim fails the event without an attempt; a claimed event ends as its outcome
   * says; nothing else changes it. Its job is used up unless the worker dies, and followed by another if the event is left
   * failed in an orderly way.
   */
  lemma DeliveryExactly(s: State, max: nat, id: nat, outcome: Outcome, now: int)
    requires Valid(s, max) && id in s.events
    ensures var t, e := Delivery(s, max, id, outcome, now), s.events[id];
            && t.nextId == s.nextId && t.events.Keys == s.events.Keys
            && (forall x :: x in s.events && x != id ==> t.events[x] == s.events[x])
            && t.events[id] == (if outcome == TimesOutBeforeClaim then e.(status := Unfinished(e.attempts, max))
                                else if CanBeClaimed(e, max) then AfterClaim(e, max, outcome, now)
                                else e)
            && t.queue == if JobStays(outcome) then s.queue
                          else s.queue - multiset{id}
                               + if QueuesAgain(outcome) && t.events[id].status == FAILED then multiset{id} else multiset{}
  {
    hide Valid;
    ValidEvent(s, max, id);
    DeliveredIs(s.events[id], max, outcome, now);
    RequeuedIs(s.events[id], max, outcome, now);
  }

  lemma DeliveredIs(e: Event, max: nat, outcome: Outcome, now: int)
    ensures Delivered(e, max, outcome, now)
         == if outcome == TimesOutBeforeClaim then e.(status := Unfinished(e.attempts, max))
            else if CanBeClaimed(e, max) then AfterClaim(e, max, outcome, now)
            else e
  {
  }

  lemma RequeuedIs(e: Event, max: nat, outcome: Outcome, now: int)
    requires EventValid(e, max)
    ensures var f := Delivered(e, max, outcome, now);
            !JobStays(outcome) ==> (Requeued(e, f, max, outcome) <==> QueuesAgain(outcome) && f.status == FAILED)
  {
  }

  /** A new event is pending and untried; one with a key stored already changes nothing. */
  lemma PersistExactly(s: State, key: string, kind: EventKind, queued: bool)
    ensures var t := Persisted(s, key, kind, queued);
            if exists id :: id in s.events && s.events[id].key == key then t == s
            else
              && t.nextId == s.nextId + 1 && t.events == s.events[s.nextId := Event(key, kind, PENDING, 0, None)]
              && t.queue == s.queue + if queued then multiset{s.nextId} else multiset{}
  {
  }

  /** A dead letter goes back to pending with its attempts; anything else is refused. */
  lemma RetryExactly(s: State, id: nat, queued: bool)
    ensures var t := Retried(s, id, queued);
            if id in s.events && s.events[id].status == DEAD_LETTER then
              var e := s.events[id];
              t == State(s.events[id := Event(e.key, e.kind, PENDING, e.attempts, e.processedAt)], s.nextId,
                         s.queue + if queued then multiset{id} else multiset{})
            else t == s
  {
  }

  /** A startup returns events in processing to pending, and gives each pending event one more job. */
  lemma StartupExactly(s: State, id: nat)
    ensures var t := StartedUp(s);
            && t.nextId == s.nextId && t.events.Keys == s.events.Keys
            && (id in s.events ==>
                  var e := s.events[id];
                  && t.events[id] == (if e.status == PROCESSING then e.(status := PENDING) else e)
                  && t.queue[id] == s.queue[id] + (if e.status == PROCESSING || e.status == PENDING then 1 else 0))
            && (id !in s.events ==> t.queue[id] == s.queue[id])
  {
  }

  /** Clean-up removes the rows of its batch that were processed or ignored before the moment given, and no others. */
  lemma CleanupExactly(s: State, ids: set<nat>, before: int, id: nat)
    ensures var t := CleanedUp(s, ids, before);
            && t.nextId == s.nextId && t.queue == s.queue
            && (id in t.events <==>
                  id in s.events
                  && !(id in ids && (s.events[id].status == PROCESSED || s.events[id].status == IGNORED)
                       && match s.events[id].processedAt case Some(at) => at < before case None => false))
            && (id in t.events ==> t.events[id] == s.events[id])
  {
  }
}
