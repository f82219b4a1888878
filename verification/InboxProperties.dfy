/** Invariants and progress of the inbox over every sequence of deliveries, crashes, retries and clean-ups. */
module InboxProperties {
  import opened Wrappers
  import opened Inbox

  ghost predicate EventValid(e: Event, max: nat) {
    && e.attempts <= max
    && (e.status.FAILED? ==> e.attempts < max)
    && (e.status.DEAD_LETTER? ==> e.attempts == max)
    && (e.status.PROCESSING? ==> e.attempts > 0)
    && (e.status in {PROCESSED, IGNORED} ==> e.attempts > 0 && e.processedAt.Some?)
    && (e.status.IGNORED? ==> e.kind in {SUBSCRIPTION_STATUS, PING})
    && (e.status.PROCESSED? ==> e.kind !in {SUBSCRIPTION_STATUS, PING})
  }

  ghost predicate KeysUnique(s: State) {
    forall x, y :: x in s.events && y in s.events && s.events[x].key == s.events[y].key ==> x == y
  }

  ghost predicate Valid(s: State, max: nat) {
    && KeysUnique(s)
    && forall id :: id in s.events ==> id < s.nextId && EventValid(s.events[id], max)
  }

  lemma DeliveredValid(e: Event, max: nat, outcome: Outcome, now: int)
    requires EventValid(e, max)
    ensures EventValid(Delivered(e, max, outcome, now), max) && Delivered(e, max, outcome, now).key == e.key
  {
  }

  lemma UpdateValid(s: State, max: nat, id: nat, e: Event, queue: multiset<nat>)
    requires Valid(s, max) && id in s.events && EventValid(e, max) && e.key == s.events[id].key
    ensures Valid(s.(events := s.events[id := e], queue := queue), max)
  {
  }

  lemma PersistValid(s: State, max: nat, key: string, kind: EventKind, queued: bool)
    requires Valid(s, max)
    ensures Valid(Persisted(s, key, kind, queued), max)
  {
    assert KeyStored(s, key) || forall id :: id in s.events ==> s.events[id].key != key;
  }

  lemma ChangeAllValid(s: State, max: nat, events: map<nat, Event>, queue: multiset<nat>)
    requires Valid(s, max)
    requires forall id :: id in events ==> id in s.events && EventValid(events[id], max) && events[id].key == s.events[id].key
    ensures Valid(s.(events := events, queue := queue), max)
  {
  }

  lemma StepValid(s: State, max: nat, a: Action)
    requires Valid(s, max)
    ensures Valid(Step(s, max, a), max)
  {
    match a
    case Persist(key, kind, queued) => PersistValid(s, max, key, kind, queued);
    case Deliver(id, outcome, now) =>
      hide Valid, Delivered, Requeued;
      var t := Step(s, max, a);
      if id in s.events {
        ValidEvent(s, max, id);
        DeliveredValid(s.events[id], max, outcome, now);
        UpdateValid(s, max, id, Delivered(s.events[id], max, outcome, now), t.queue);
      } else {
        ChangeAllValid(s, max, s.events, t.queue) by { assert Valid(s, max); ValidEvents(s, max); }
      }
    case Retry(id, queued) =>
      if Retried(s, id, queued) != s {
        UpdateValid(s, max, id, s.events[id].(status := PENDING), Retried(s, id, queued).queue);
      }
    case Startup => ChangeAllValid(s, max, StartedUp(s).events, StartedUp(s).queue);
    case Cleanup(ids, before) => ChangeAllValid(s, max, CleanedUp(s, ids, before).events, s.queue);
  }

  lemma ValidEvent(s: State, max: nat, id: nat)
    requires Valid(s, max) && id in s.events
    ensures EventValid(s.events[id], max)
  {
  }

  lemma ValidEvents(s: State, max: nat)
    requires Valid(s, max)
    ensures forall id :: id in s.events ==> EventValid(s.events[id], max)
  {
  }

  /**
   * In every run: attempts stay within the maximum, a failed event may be tried again, a dead letter has used
   * all its attempts, and no broker event is stored twice.
   */
  lemma {:induction false} AlwaysValid(max: nat, actions: seq<Action>)
    ensures Valid(Run(EMPTY, max, actions), max)
  {
    hide Step, Valid;
    if actions == [] {
      EmptyValid(max);
    } else {
      AlwaysValid(max, actions[..|actions| - 1]);
      StepValid(Run(EMPTY, max, actions[..|actions| - 1]), max, actions[|actions| - 1]);
    }
  }

  lemma EmptyValid(max: nat)
    ensures Valid(EMPTY, max)
  {
  }

  // ------------------------------------------------------------- one event over time

  function EventStep(e: Event, max: nat, a: Action, id: nat): Event {
    match a
    case Deliver(i, outcome, now) => if i == id then Delivered(e, max, outcome, now) else e
    case Retry(i, _) => if i == id && e.status.DEAD_LETTER? then e.(status := PENDING) else e
    case Startup => Recovered(e)
    case _ => e
  }

  predicate Removed(e: Event, a: Action, id: nat) {
    a.Cleanup? && id in a.ids && Removable(e, a.before)
  }

  predicate Added(s: State, a: Action, id: nat) {
    a.Persist? && !KeyStored(s, a.key) && id == s.nextId
  }

  /** What an action does to one event. */
  lemma StepAt(s: State, max: nat, a: Action, id: nat)
    requires forall x :: x in s.events ==> x < s.nextId
    ensures var t := Step(s, max, a);
            && s.nextId <= t.nextId && (id < t.nextId <==> id < s.nextId || Added(s, a, id))
            && (id in t.events <==> if id in s.events then !Removed(s.events[id], a, id) else Added(s, a, id))
            && (id in t.events ==>
                  t.events[id] == if id in s.events then EventStep(s.events[id], max, a, id)
                                  else Event(a.key, a.kind, PENDING, 0, None))
  {
    hide Delivered, Requeued, Removable, Recovered, KeyStored, PendingIds;
  }

  /** `t` follows `s`: an event stays, with its key and no fewer attempts, unless it was processed or ignored. */
  ghost predicate Follows(s: State, t: State) {
    && s.nextId <= t.nextId
    && forall id :: id in s.events ==>
         if id in t.events then t.events[id].key == s.events[id].key && t.events[id].attempts >= s.events[id].attempts
         else s.events[id].status in {PROCESSED, IGNORED}
  }

  /** Attempts never decrease, and only clean-up of processed or ignored events removes anything. */
  lemma StepFollows(s: State, max: nat, a: Action)
    requires forall id :: id in s.events ==> id < s.nextId
    ensures Follows(s, Step(s, max, a))
  {
    hide Step;
    forall id | id in s.events
      ensures id in Step(s, max, a).events ==> Step(s, max, a).events[id].key == s.events[id].key
                                               && Step(s, max, a).events[id].attempts >= s.events[id].attempts
      ensures id !in Step(s, max, a).events ==> s.events[id].status in {PROCESSED, IGNORED}
    {
      StepAt(s, max, a, id);
    }
    StepAt(s, max, a, 0);
  }

  /** The deliveries of a run that let the handler start on event `id`. */
  function HandlerRuns(s: State, max: nat, actions: seq<Action>, id: nat): nat {
    if actions == [] then 0
    else
      var init, a := actions[..|actions| - 1], actions[|actions| - 1];
      var before := Run(s, max, init);
      HandlerRuns(s, max, init, id) + if Starts(before, max, a, id) then 1 else 0
  }

  predicate Starts(s: State, max: nat, a: Action, id: nat) {
    && a.Deliver? && a.id == id && id in s.events && Claimable(s.events[id], max)
    && a.outcome !in {TimesOutBeforeClaim, DiesBeforeClaim, ClaimRaises}
  }

  ghost predicate RunsBounded(s: State, max: nat, id: nat, runs: nat) {
    && (id in s.events ==> runs <= s.events[id].attempts)
    && (id >= s.nextId ==> runs == 0)
    && runs <= max
  }

  lemma StepRunsBounded(s: State, max: nat, a: Action, id: nat, runs: nat)
    requires Valid(s, max) && RunsBounded(s, max, id, runs)
    ensures RunsBounded(Step(s, max, a), max, id, runs + if Starts(s, max, a, id) then 1 else 0)
  {
    hide Step;
    StepAt(s, max, a, id);
  }

  /** The handler runs at most `max` times on an event, whatever crashes, recoveries and manual retries happen. */
  lemma {:induction false} HandlerRunsBounded(max: nat, actions: seq<Action>, id: nat)
    ensures RunsBounded(Run(EMPTY, max, actions), max, id, HandlerRuns(EMPTY, max, actions, id))
    ensures HandlerRuns(EMPTY, max, actions, id) <= max
  {
    hide Step, Valid, RunsBounded, Starts;
    if actions == [] {
      NoRunsYet(max, id);
    } else {
      var init := actions[..|actions| - 1];
      HandlerRunsBounded(max, init, id);
      AlwaysValid(max, init);
      StepRunsBounded(Run(EMPTY, max, init), max, actions[|actions| - 1], id, HandlerRuns(EMPTY, max, init, id));
    }
    WithinMax(Run(EMPTY, max, actions), max, id, HandlerRuns(EMPTY, max, actions, id));
  }

  lemma NoRunsYet(max: nat, id: nat)
    ensures RunsBounded(EMPTY, max, id, 0)
  {
  }

  lemma WithinMax(s: State, max: nat, id: nat, runs: nat)
    requires RunsBounded(s, max, id, runs)
    ensures runs <= max
  {
  }

  // ------------------------------------------------------------- final is not quite final

  /**
   * A finished event is changed or removed exactly by clean-up of its row, by the manual retry of a dead letter, and by
   * a delivery that times out before the claim, if it was processed or ignored.
   */
  lemma FinalChanges(s: State, max: nat, a: Action, id: nat)
    requires Valid(s, max) && id in s.events && Final(s.events[id].status)
    ensures var t := Step(s, max, a);
            !(id in t.events && t.events[id] == s.events[id]) <==>
              || Removed(s.events[id], a, id)
              || (a.Retry? && a.id == id && s.events[id].status.DEAD_LETTER?)
              || (a.Deliver? && a.id == id && a.outcome.TimesOutBeforeClaim? && !s.events[id].status.DEAD_LETTER?)
  {
    hide Step;
    ValidEvent(s, max, id);
    StepAt(s, max, a, id);
  }

  /** The handler has completed and committed. */
  predicate Committed(outcome: Outcome) {
    outcome in {Completes, TimesOutAfterCommit, DiesAfterCommit}
  }

  /**
   * A handler that completed is run again by a later delivery exactly if the timeout fires after its last commit, with
   * attempts left: the event is then recorded as failed and queued again.
   */
  lemma CompletedRunsAgain(s: State, max: nat, id: nat, outcome: Outcome, now: int, later: int)
    requires id in s.events && Claimable(s.events[id], max) && Committed(outcome)
    ensures var t := Step(s, max, Deliver(id, outcome, now));
            && id in t.events && t.events[id].processedAt == Some(now)
            && (Starts(t, max, Deliver(id, Completes, later), id) <==>
                  outcome.TimesOutAfterCommit? && s.events[id].attempts + 1 < max)
            && (Starts(t, max, Deliver(id, Completes, later), id) ==> t.events[id].status.FAILED? && id in t.queue)
  {
  }

  // ------------------------------------------------------------- stuck for ever

  /** All attempts used, and waiting or dead. */
  predicate Stuck(s: State, max: nat, id: nat) {
    id in s.events && s.events[id].attempts >= max && s.events[id].status in {PENDING, DEAD_LETTER}
  }

  lemma StepStuck(s: State, max: nat, a: Action, id: nat)
    requires Stuck(s, max, id) && forall x :: x in s.events ==> x < s.nextId
    ensures Stuck(Step(s, max, a), max, id) && !Starts(s, max, a, id)
    ensures forall x :: x in Step(s, max, a).events ==> x < Step(s, max, a).nextId
  {
    hide Step;
    StepAt(s, max, a, id);
    forall x | x in Step(s, max, a).events ensures x < Step(s, max, a).nextId {
      StepAt(s, max, a, x);
    }
  }

  /** Nothing that can happen ever lets the handler run on a stuck event again. */
  lemma {:induction false} StuckForever(s: State, max: nat, actions: seq<Action>, id: nat)
    requires Stuck(s, max, id) && forall x :: x in s.events ==> x < s.nextId
    ensures Stuck(Run(s, max, actions), max, id)
    ensures forall x :: x in Run(s, max, actions).events ==> x < Run(s, max, actions).nextId
    ensures HandlerRuns(s, max, actions, id) == 0
  {
    hide Step, Stuck, Starts;
    if actions != [] {
      StuckForever(s, max, actions[..|actions| - 1], id);
      StepStuck(Run(s, max, actions[..|actions| - 1]), max, actions[|actions| - 1], id);
    }
  }

  /** The action uses up the last attempt of an event, or finds it used up, without finishing it. */
  predicate Sticks(s: State, max: nat, a: Action, id: nat)
    requires id in s.events
  {
    var e := s.events[id];
    match a
    case Deliver(x, outcome, _) =>
      && x == id
      && if Claimable(e, max) then
           e.attempts + 1 == max && outcome in {Raises, TimesOutInHandler, TimesOutAfterCommit, RequeueRaises}
         else outcome.TimesOutBeforeClaim? && e.attempts == max
    case Startup => e.status.PROCESSING? && e.attempts == max
    case _ => false
  }

  /** Over all actions: an event gets stuck exactly by one that sticks it. */
  lemma GetsStuckExactly(s: State, max: nat, a: Action, id: nat)
    requires Valid(s, max) && id in s.events && !Stuck(s, max, id)
    ensures Stuck(Step(s, max, a), max, id) <==> Sticks(s, max, a, id)
  {
    hide Step;
    ValidEvent(s, max, id);
    StepAt(s, max, a, id);
  }

  /**
   * The manual retry of an event, meant to process a dead letter again, leaves it stuck if it was and frees nothing.
   * A worker's death in the handler makes a claimable event stuck, once the worker starts up again, exactly if it was
   * the last attempt.
   */
  lemma WaysToGetStuck(s: State, max: nat, id: nat, queued: bool, now: int)
    requires Valid(s, max) && id in s.events
    ensures s.events[id].status.DEAD_LETTER? ==> Stuck(s, max, id)
    ensures Stuck(Step(s, max, Retry(id, queued)), max, id) <==> Stuck(s, max, id)
    ensures Claimable(s.events[id], max) ==>
              (Stuck(Step(Step(s, max, Deliver(id, DiesInHandler, now)), max, Startup), max, id)
               <==> s.events[id].attempts + 1 == max)
  {
    hide Persisted, CleanedUp, PendingIds;
  }

  // ------------------------------------------------------------- forgotten

  /** Failed, with attempts left, but without a job. */
  predicate Forgotten(s: State, id: nat) {
    id in s.events && s.events[id].status.FAILED? && s.queue[id] == 0
  }

  /** Only queued jobs are delivered. */
  predicate FromQueue(s: State, a: Action) {
    a.Deliver? ==> a.id in s.queue
  }

  predicate QueuedRun(s: State, max: nat, actions: seq<Action>) {
    actions == [] || (QueuedRun(s, max, actions[..|actions| - 1])
                      && FromQueue(Run(s, max, actions[..|actions| - 1]), actions[|actions| - 1]))
  }

  /** Jobs are of events stored once. */
  ghost predicate JobsKnown(s: State) {
    forall id :: id in s.queue ==> id < s.nextId
  }

  lemma StepJobsKnown(s: State, max: nat, a: Action)
    requires Valid(s, max) && FromQueue(s, a) && JobsKnown(s)
    ensures JobsKnown(Step(s, max, a))
  {
    hide Step, Valid, KeyStored, Removed;
    forall id | id in Step(s, max, a).queue ensures id < Step(s, max, a).nextId {
      ValidIds(s, max);
      StepAt(s, max, a, id);
      JobsAt(s, max, a, id);
    }
  }

  lemma ValidIds(s: State, max: nat)
    requires Valid(s, max)
    ensures forall id :: id in s.events ==> id < s.nextId
  {
  }

  /** An event that can still be claimed has a job. */
  predicate Served(s: State, max: nat, id: nat) {
    id in s.events && Claimable(s.events[id], max) ==> s.queue[id] >= 1
  }

  /**
   * The action costs an event its job: its only job is ended by an exception that escapes the claim, or, with attempts
   * left, the queueing of the next job; or the event is stored by a process that dies before queueing its first.
   */
  predicate Strands(s: State, max: nat, a: Action, id: nat) {
    match a
    case Deliver(x, outcome, _) =>
      && x == id && id in s.events && Claimable(s.events[id], max) && s.queue[id] == 1
      && (outcome.ClaimRaises? || (outcome.RequeueRaises? && s.events[id].attempts + 1 < max))
    case Persist(_, _, queued) => Added(s, a, id) && !queued && max > 0
    case _ => false
  }

  /** The queue's jobs of one event after an action. */
  lemma JobsAt(s: State, max: nat, a: Action, id: nat)
    requires FromQueue(s, a)
    ensures var t := Step(s, max, a);
            t.queue[id] ==
              match a
              case Persist(_, _, queued) => s.queue[id] + (if Added(s, a, id) && queued then 1 else 0)
              case Deliver(x, outcome, now) =>
                s.queue[id] - (if x == id && !Dies(outcome) then 1 else 0)
                + (if x == id && !Dies(outcome) && GoesBack(s, max, a) then 1 else 0)
              case Retry(x, queued) =>
                s.queue[id] + (if x == id && id in s.events && s.events[id].status.DEAD_LETTER? && queued then 1 else 0)
              case Startup => s.queue[id] + (if id in t.events && t.events[id].status.PENDING? then 1 else 0)
              case Cleanup(_, _) => s.queue[id]
  {
    hide Requeued, Delivered, Recovered, Removable, KeyStored;
  }

  /**
   * One action: an event served before is served after unless the action strands it; one without its job gets it back
   * only by a startup, and only while it is pending.
   */
  lemma ServedExactly(s: State, max: nat, a: Action, id: nat)
    requires Valid(s, max) && FromQueue(s, a) && JobsKnown(s)
    ensures Served(Step(s, max, a), max, id) <==>
              if Served(s, max, id) then !Strands(s, max, a, id) else a.Startup? && s.events[id].status.PENDING?
  {
    hide Step, KeysUnique, KeyStored;
    StepAt(s, max, a, id);
    JobsAt(s, max, a, id);
    if id in s.events {
      ValidEvent(s, max, id);
    }
  }

  /** In every run from the queue, jobs are of stored events. */
  lemma {:induction false} AlwaysJobsKnown(max: nat, actions: seq<Action>)
    requires QueuedRun(EMPTY, max, actions)
    ensures JobsKnown(Run(EMPTY, max, actions))
  {
    hide Step, FromQueue;
    if actions != [] {
      var init := actions[..|actions| - 1];
      AlwaysJobsKnown(max, init);
      AlwaysValid(max, init);
      StepJobsKnown(Run(EMPTY, max, init), max, actions[|actions| - 1]);
    }
  }

  lemma {:induction false} QueuedPrefix(max: nat, actions: seq<Action>, n: nat)
    requires QueuedRun(EMPTY, max, actions) && n <= |actions|
    ensures QueuedRun(EMPTY, max, actions[..n])
    ensures n < |actions| ==> FromQueue(Run(EMPTY, max, actions[..n]), actions[n])
  {
    hide Run, FromQueue;
    if n == |actions| {
      assert actions[..n] == actions;
    } else {
      var init := actions[..|actions| - 1];
      QueuedPrefix(max, init, n);
      assert init[..n] == actions[..n];
      assert n == |init| ==> actions[..n] == init;
    }
  }

  predicate ServedUpTo(max: nat, actions: seq<Action>, n: nat, id: nat)
    requires n <= |actions|
  {
    Served(Run(EMPTY, max, actions[..n]), max, id)
  }

  predicate StrandsIn(max: nat, actions: seq<Action>, n: nat, id: nat)
    requires n < |actions|
  {
    Strands(Run(EMPTY, max, actions[..n]), max, actions[n], id)
  }

  /** One action of a run, the event being served before it. */
  lemma ServedNext(max: nat, actions: seq<Action>, n: nat, id: nat)
    requires QueuedRun(EMPTY, max, actions) && n < |actions|
    ensures ServedUpTo(max, actions, n, id) ==>
              (ServedUpTo(max, actions, n + 1, id) <==> !StrandsIn(max, actions, n, id))
    ensures StrandsIn(max, actions, n, id) ==> ServedUpTo(max, actions, n, id)
  {
    hide Step, Valid, FromQueue, Strands, Served, JobsKnown;
    var s := Run(EMPTY, max, actions[..n]);
    QueuedPrefix(max, actions, n);
    AlwaysJobsKnown(max, actions[..n]);
    AlwaysValid(max, actions[..n]);
    ServedExactly(s, max, actions[n], id);
    StrandedWasServed(s, max, actions[n], id);
    assert actions[..n + 1][..n] == actions[..n];
  }

  lemma StrandedWasServed(s: State, max: nat, a: Action, id: nat)
    requires Valid(s, max)
    ensures Strands(s, max, a, id) ==> Served(s, max, id)
  {
    hide KeyStored, KeysUnique;
  }

  lemma {:induction false} ServedAlong(max: nat, actions: seq<Action>, n: nat, id: nat)
    requires QueuedRun(EMPTY, max, actions) && n <= |actions|
    requires forall i :: 0 <= i < n ==> !StrandsIn(max, actions, i, id)
    ensures ServedUpTo(max, actions, n, id)
  {
    hide StrandsIn, QueuedRun;
    if n == 0 {
      assert actions[..0] == [];
    } else {
      ServedAlong(max, actions, n - 1, id);
      ServedNext(max, actions, n - 1, id);
    }
  }

  /**
   * In every run whose deliveries come from the queue, with crashes, restarts, manual retries, timeouts and escaping
   * exceptions anywhere: an event has a job at every moment at which it can be claimed, exactly if no action strands it.
   */
  lemma JobKeptExactly(max: nat, actions: seq<Action>, id: nat)
    requires QueuedRun(EMPTY, max, actions)
    ensures (forall n :: 0 <= n <= |actions| ==> ServedUpTo(max, actions, n, id))
       <==> (forall n :: 0 <= n < |actions| ==> !StrandsIn(max, actions, n, id))
  {
    hide ServedUpTo, StrandsIn, QueuedRun;
    if forall n :: 0 <= n < |actions| ==> !StrandsIn(max, actions, n, id) {
      forall n | 0 <= n <= |actions| ensures ServedUpTo(max, actions, n, id) {
        ServedAlong(max, actions, n, id);
      }
    } else {
      var n :| 0 <= n < |actions| && StrandsIn(max, actions, n, id);
      ServedNext(max, actions, n, id);
      assert !ServedUpTo(max, actions, n + 1, id);
    }
  }

  /** A stranded event waits for the next startup while it is pending; once failed it is forgotten, as follows. */
  lemma EscapesForget(s: State, max: nat, a: Action, id: nat)
    requires Valid(s, max) && FromQueue(s, a) && JobsKnown(s) && id in s.events && Served(s, max, id)
    ensures Forgotten(Step(s, max, a), id) <==>
              Strands(s, max, a, id) && (a.outcome.RequeueRaises? || s.events[id].status.FAILED?)
  {
    hide Step, KeysUnique, KeyStored;
    StepAt(s, max, a, id);
    JobsAt(s, max, a, id);
    ValidEvent(s, max, id);
  }

  lemma StepForgotten(s: State, max: nat, a: Action, id: nat)
    requires Forgotten(s, id) && id < s.nextId && FromQueue(s, a)
    ensures Forgotten(Step(s, max, a), id) && Step(s, max, a).events[id] == s.events[id] && id < Step(s, max, a).nextId
  {
    hide Delivered, Requeued;
    match a
    case Deliver(x, outcome, now) => assert x != id;
    case Startup => assert id !in PendingIds(StartedUp(s).events);
    case Persist(key, kind, queued) => hide KeyStored;
    case Retry(x, queued) =>
    case Cleanup(ids, before) =>
  }

  /** No later delivery, restart, retry or clean-up ever touches a forgotten event: it waits for a job that never comes. */
  lemma {:induction false} ForgottenForever(s: State, max: nat, actions: seq<Action>, id: nat)
    requires Forgotten(s, id) && id < s.nextId && QueuedRun(s, max, actions)
    ensures Forgotten(Run(s, max, actions), id) && Run(s, max, actions).events[id] == s.events[id]
    ensures id < Run(s, max, actions).nextId
  {
    hide Step, Forgotten, FromQueue;
    if actions == [] {
      IsThere(s, id);
    } else {
      ForgottenForever(s, max, actions[..|actions| - 1], id);
      StepForgotten(Run(s, max, actions[..|actions| - 1]), max, actions[|actions| - 1], id);
      IsThere(Run(s, max, actions), id);
    }
  }

  lemma IsThere(s: State, id: nat)
    requires Forgotten(s, id)
    ensures id in s.events
  {
  }

  // ------------------------------------------------------------- progress

  /** No crash, escaping exception, manual retry or restart; every delivery comes from the queue and reaches the claim. */
  predicate Smooth(s: State, a: Action) {
    match a
    case Deliver(id, outcome, now) => id in s.queue && !Dies(outcome) && !Escapes(outcome) && !outcome.TimesOutBeforeClaim?
    case Persist(_, _, queued) => queued
    case Retry(_, _) => false
    case Startup => false
    case _ => true
  }

  predicate SmoothRun(max: nat, actions: seq<Action>) {
    actions == [] || (SmoothRun(max, actions[..|actions| - 1])
                      && Smooth(Run(EMPTY, max, actions[..|actions| - 1]), actions[|actions| - 1]))
  }

  function Deliveries(actions: seq<Action>, id: nat): nat {
    if actions == [] then 0
    else
      var a := actions[|actions| - 1];
      Deliveries(actions[..|actions| - 1], id) + if a.Deliver? && a.id == id then 1 else 0
  }

  /** Exactly one job for every unfinished event and none for the others; each delivery costs an attempt. */
  ghost predicate OneJobEach(s: State, max: nat, id: nat, deliveries: nat) {
    if id !in s.events then s.queue[id] == 0 && deliveries <= max && (id >= s.nextId ==> deliveries == 0)
    else
      && deliveries == s.events[id].attempts
      && !s.events[id].status.PROCESSING?
      && (s.events[id].status.PENDING? ==> s.events[id].attempts == 0)
      && s.queue[id] == if Final(s.events[id].status) then 0 else 1
  }

  predicate GoesBack(s: State, max: nat, a: Action) {
    a.Deliver? && a.id in s.events
    && Requeued(s.events[a.id], Delivered(s.events[a.id], max, a.outcome, a.now), max, a.outcome)
  }

  /** What a smooth action does to the jobs of one event. */
  lemma QueueAt(s: State, max: nat, a: Action, id: nat)
    requires Smooth(s, a)
    ensures Step(s, max, a).queue[id]
         == s.queue[id] - (if a.Deliver? && a.id == id then 1 else 0)
            + (if GoesBack(s, max, a) && a.id == id then 1 else 0) + (if Added(s, a, id) then 1 else 0)
  {
    hide Requeued, Delivered, Recovered, Removable, KeyStored;
  }

  lemma StepOneJobEach(s: State, max: nat, a: Action, id: nat, deliveries: nat)
    requires Valid(s, max) && max > 0 && Smooth(s, a) && OneJobEach(s, max, id, deliveries)
    ensures OneJobEach(Step(s, max, a), max, id, deliveries + if a.Deliver? && a.id == id then 1 else 0)
  {
    hide Step, KeysUnique, KeyStored;
    StepAt(s, max, a, id);
    QueueAt(s, max, a, id);
    if id in s.events {
      ValidEvent(s, max, id);
    }
  }

  /**
   * Progress: while nothing crashes and no exception escapes, every unfinished event has exactly one queued job, each
   * delivery uses up an attempt, and so an event needs at most `max` deliveries to be finished.
   */
  lemma {:induction false} EveryEventHasItsJob(max: nat, actions: seq<Action>, id: nat)
    requires max > 0 && SmoothRun(max, actions)
    ensures OneJobEach(Run(EMPTY, max, actions), max, id, Deliveries(actions, id))
    ensures Deliveries(actions, id) <= max
  {
    hide Step, Smooth, Valid;
    AlwaysValid(max, actions);
    AttemptsWithinMax(Run(EMPTY, max, actions), max);
    if actions != [] {
      var init := actions[..|actions| - 1];
      EveryEventHasItsJob(max, init, id);
      AlwaysValid(max, init);
      StepOneJobEach(Run(EMPTY, max, init), max, actions[|actions| - 1], id, Deliveries(init, id));
    }
  }

  lemma AttemptsWithinMax(s: State, max: nat)
    requires Valid(s, max)
    ensures forall id :: id in s.events ==> s.events[id].attempts <= max
  {
  }

  /** When the queue has run dry, every stored event is finished. */
  lemma EmptyQueueMeansFinished(max: nat, actions: seq<Action>)
    requires max > 0 && SmoothRun(max, actions) && Run(EMPTY, max, actions).queue == multiset{}
    ensures var s := Run(EMPTY, max, actions); forall id :: id in s.events ==> Final(s.events[id].status)
  {
    hide Run, SmoothRun;
    var s := Run(EMPTY, max, actions);
    forall id | id in s.events ensures Final(s.events[id].status) {
      EveryEventHasItsJob(max, actions, id);
    }
  }
}
