/** The inbox tables and the worker's job functions as they change them, each proved to be a step of the inbox. */
module InboxService {
  import opened Wrappers
  import I = Inbox

  type Event = I.Event

  lemma UpdatedTwice(events: map<nat, Event>, id: nat, first: Event, second: Event)
    ensures events[id := first][id := second] == events[id := second]
  {
  }

  lemma UnknownDelivery(s: I.State, max: nat, id: nat, outcome: I.Outcome, now: int)
    requires !I.Dies(outcome)
    ensures id !in s.events ==> I.Delivery(s, max, id, outcome, now) == s.(queue := s.queue - multiset{id})
  {
  }

  lemma EscapedEvent(e: Event, max: nat, outcome: I.Outcome, now: int)
    requires I.Escapes(outcome)
    ensures I.Delivered(e, max, outcome, now)
         == if outcome.ClaimRaises? || !I.Claimable(e, max) then e
            else if outcome.FailRaises? then I.ClaimOf(e)
            else I.FailureOf(I.ClaimOf(e), max)
  {
    hide I.Claimable, I.ClaimOf, I.FailureOf;
  }

  lemma EscapedDelivery(s: I.State, max: nat, id: nat, outcome: I.Outcome, now: int)
    requires id in s.events && I.Escapes(outcome)
    ensures I.Delivery(s, max, id, outcome, now)
         == s.(events := s.events[id := I.Delivered(s.events[id], max, outcome, now)], queue := s.queue - multiset{id})
  {
    hide I.Claimable, I.Delivered;
  }

  lemma SettledDelivery(s: I.State, max: nat, id: nat, outcome: I.Outcome, now: int, processed: bool)
    requires id in s.events && !I.Dies(outcome) && !I.Escapes(outcome)
    requires processed <==> I.Claimable(s.events[id], max) && outcome.Completes?
    ensures var e, queue := I.Delivered(s.events[id], max, outcome, now), s.queue - multiset{id};
            I.Delivery(s, max, id, outcome, now)
            == s.(events := s.events[id := e], queue := if !processed && e.status.FAILED? then queue + multiset{id} else queue)
  {
    hide I.Claimable, I.Delivered;
  }

  class StreamInbox {
    var events: map<nat, Event>
    var nextId: nat
    var queue: multiset<nat>

    constructor ()
      ensures State() == I.EMPTY
    {
      events, nextId, queue := map[], 0, multiset{};
    }

    function State(): I.State
      reads this
    {
      I.State(events, nextId, queue)
    }

    method EnqueueJob(id: nat)
      modifies this`queue
      ensures queue == old(queue) + multiset{id}
    {
      queue := queue + multiset{id};
    }

    /** `persist_event`, and the job its caller enqueues for a new event unless it dies before; `queued` says which. */
    method PersistEvent(key: string, kind: I.EventKind, queued: bool) returns (created: bool)
      modifies this
      ensures State() == I.Persisted(old(State()), key, kind, queued)
      ensures created <==> !I.KeyStored(old(State()), key)
    {
      var rest := events.Keys;
      while rest != {}
        invariant rest <= events.Keys && State() == old(State())
        invariant forall id :: id in events && id !in rest ==> events[id].key != key
        decreases |rest|
      {
        var id :| id in rest;
        if events[id].key == key {
          return false;
        }
        rest := rest - {id};
      }
      events := events[nextId := I.Event(key, kind, I.PENDING, 0, None)];
      if queued {
        EnqueueJob(nextId);
      }
      nextId := nextId + 1;
      return true;
    }

    /** `claim_event` */
    method ClaimEvent(id: nat, max: nat) returns (claimed: bool)
      modifies this`events
      ensures claimed <==> id in old(events) && I.Claimable(old(events)[id], max)
      ensures events == if claimed then old(events)[id := I.ClaimOf(old(events)[id])] else old(events)
    {
      if id !in events || events[id].status !in {I.PENDING, I.FAILED} || events[id].attempts >= max {
        return false;
      }
      var e := events[id];
      events := events[id := e.(status := I.PROCESSING, attempts := e.attempts + 1)];
      return true;
    }

    /** `complete_event` */
    method CompleteEvent(id: nat, ignored: bool, now: int)
      requires id in events && (ignored <==> events[id].kind in {I.SUBSCRIPTION_STATUS, I.PING})
      modifies this`events
      ensures events == old(events)[id := I.CompletionOf(old(events)[id], now)]
    {
      events := events[id := events[id].(status := if ignored then I.IGNORED else I.PROCESSED, processedAt := Some(now))];
    }

    /** `fail_event` */
    method FailEvent(id: nat, max: nat) returns (dead: bool)
      requires id in events
      modifies this`events
      ensures events == old(events)[id := I.FailureOf(old(events)[id], max)]
      ensures dead <==> events[id].status.DEAD_LETTER?
    {
      dead := events[id].attempts >= max;
      events := events[id := events[id].(status := if dead then I.DEAD_LETTER else I.FAILED)];
    }

    /** `retry_event` behind its route, which refuses everything but dead letters, and may die before queueing. */
    method RetryEvent(id: nat, queued: bool) returns (accepted: bool)
      modifies this
      ensures State() == I.Retried(old(State()), id, queued)
      ensures accepted <==> id in old(events) && old(events)[id].status.DEAD_LETTER?
    {
      if id !in events || events[id].status != I.DEAD_LETTER {
        return false;
      }
      events := events[id := events[id].(status := I.PENDING)];
      if queued {
        EnqueueJob(id);
      }
      return true;
    }

    /**
     * `process_broker_stream_event` around `process_event`; `outcome` is what the handler does and where a
     * timeout, a crash or an escaping exception hits. The last two end the call where they happen.
     */
    method ProcessBrokerStreamEvent(id: nat, max: nat, outcome: I.Outcome, now: int)
      modifies this
      ensures State() == I.Delivery(old(State()), max, id, outcome, now)
    {
      hide I.Claimable, I.ClaimOf, I.CompletionOf, I.FailureOf, I.Delivered, I.Delivery;
      if I.Dies(outcome) {
        Die(id, max, outcome, now);
        return;
      }
      if I.Escapes(outcome) {
        Escape(id, max, outcome, now);
        return;
      }
      UnknownDelivery(State(), max, id, outcome, now);
      queue := queue - multiset{id};
      var processed, late := Process(id, max, outcome, now);
      if id in events {
        ghost var before := old(State());
        ghost var e := I.Delivered(before.events[id], max, outcome, now);
        SettledDelivery(before, max, id, outcome, now, processed);
        UpdatedTwice(before.events, id, events[id], e);
        Settle(id, max, processed, late);
      }
    }

    /** The part of the job after the timeout block. */
    method Settle(id: nat, max: nat, processed: bool, late: bool)
      requires id in events && (late ==> !processed)
      modifies this`events, this`queue
      ensures var e := if late then I.FailureOf(old(events)[id], max) else old(events)[id];
              && events == old(events)[id := e]
              && queue == if !processed && e.status.FAILED? then old(queue) + multiset{id} else old(queue)
    {
      if late {
        var _ := FailEvent(id, max);
      }
      if !processed && events[id].status.FAILED? {
        EnqueueJob(id);
      }
    }

    /** `process_event` under its timeout: whether it returned true, and whether the timeout cut it short. */
    method Process(id: nat, max: nat, outcome: I.Outcome, now: int) returns (processed: bool, late: bool)
      requires !I.Dies(outcome) && !I.Escapes(outcome)
      modifies this`events
      ensures late ==> !processed
      ensures id !in old(events) ==> events == old(events) && !processed
      ensures id in old(events) ==>
                var before := old(events)[id];
                && id in events && events == old(events)[id := events[id]]
                && (if late then I.FailureOf(events[id], max) else events[id]) == I.Delivered(before, max, outcome, now)
                && (processed <==> I.Claimable(before, max) && outcome.Completes?)
    {
      if outcome.TimesOutBeforeClaim? {
        return false, true;
      }
      var claimed := ClaimEvent(id, max);
      if !claimed {
        return false, false;
      }
      if outcome == I.Raises {
        var _ := FailEvent(id, max);
        return false, false;
      }
      if outcome == I.TimesOutInHandler {
        return false, true;
      }
      CompleteEvent(id, events[id].kind in {I.SUBSCRIPTION_STATUS, I.PING}, now);
      return outcome == I.Completes, outcome != I.Completes;
    }

    /** The job up to the call that raises. */
    method Escape(id: nat, max: nat, outcome: I.Outcome, now: int)
      requires I.Escapes(outcome)
      modifies this
      ensures State() == I.Delivery(old(State()), max, id, outcome, now)
    {
      hide I.Claimable, I.ClaimOf, I.FailureOf, I.Delivery, I.Delivered;
      UnknownDelivery(State(), max, id, outcome, now);
      queue := queue - multiset{id};
      if id in events {
        ghost var before := events[id];
        EscapedDelivery(old(State()), max, id, outcome, now);
        EscapedEvent(before, max, outcome, now);
        UpdatedTwice(old(events), id, I.ClaimOf(before), I.FailureOf(I.ClaimOf(before), max));
        assert old(events)[id := before] == old(events);
        if outcome != I.ClaimRaises {
          var claimed := ClaimEvent(id, max);
          if claimed {
            if outcome == I.RequeueRaises {
              var _ := FailEvent(id, max);
            }
          }
        }
      }
    }

    method Die(id: nat, max: nat, outcome: I.Outcome, now: int)
      requires I.Dies(outcome)
      modifies this`events
      ensures State() == I.Delivery(old(State()), max, id, outcome, now)
    {
      if outcome != I.DiesBeforeClaim {
        var claimed := ClaimEvent(id, max);
        if claimed {
          if outcome == I.DiesAfterCommit {
            CompleteEvent(id, events[id].kind in {I.SUBSCRIPTION_STATUS, I.PING}, now);
          }
        }
      }
    }

    /** `startup`: `startup_recovery`, then a job for each pending event. */
    method Startup()
      modifies this
      ensures State() == I.StartedUp(old(State()))
    {
      StartupRecovery();
      EnqueueAll(I.PendingIds(events));
    }

    method EnqueueAll(pending: set<nat>)
      modifies this`queue
      ensures queue == old(queue) + multiset(pending)
    {
      var rest := pending;
      while rest != {}
        invariant rest <= pending && queue == old(queue) + multiset(pending - rest)
        decreases |rest|
      {
        var id :| id in rest;
        assert pending - (rest - {id}) == (pending - rest) + {id};
        EnqueueJob(id);
        rest := rest - {id};
      }
      assert pending - {} == pending;
    }

    method StartupRecovery()
      modifies this`events
      ensures events == map id | id in old(events) :: I.Recovered(old(events)[id])
    {
      var rest := events.Keys;
      while rest != {}
        invariant rest <= old(events).Keys && events.Keys == old(events).Keys
        invariant forall id :: id in events ==>
                    events[id] == if id in rest then old(events)[id] else I.Recovered(old(events)[id])
        decreases |rest|
      {
        var id :| id in rest;
        if events[id].status.PROCESSING? {
          events := events[id := events[id].(status := I.PENDING)];
        }
        rest := rest - {id};
      }
    }

    /** `cleanup`: removes a batch of at most `batchSize` finished rows, all of them if there are no more. */
    method Cleanup(before: int, batchSize: nat) returns (removed: set<nat>)
      modifies this`events
      ensures State() == I.CleanedUp(old(State()), removed, before)
      ensures |removed| <= batchSize
      ensures forall id :: id in removed ==> id in old(events) && I.Removable(old(events)[id], before)
      ensures |removed| < batchSize ==> forall id :: id in events ==> !I.Removable(events[id], before)
    {
      removed := {};
      var rest := events.Keys;
      while rest != {} && |removed| < batchSize
        invariant removed !! rest && removed + rest <= events.Keys && |removed| <= batchSize
        invariant forall id :: id in removed ==> I.Removable(events[id], before)
        invariant forall id :: id in events && id !in rest && id !in removed ==> !I.Removable(events[id], before)
        decreases |rest|
      {
        var id :| id in rest;
        rest := rest - {id};
        if I.Removable(events[id], before) {
          removed := removed + {id};
        }
      }
      events := map id | id in events && id !in removed :: events[id];
    }
  }
}
