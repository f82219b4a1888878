/**
 * Waking up the reconciliation: many reasons are gathered in a Redis set and answered by one deferred job.
 *
 * Each account has a flag key, a set of reasons and usually at most one job. Both keys have a time to live: the
 * flag's runs from the moment it is set, that of the reasons from the last one added. Whether the reconciliation
 * itself succeeds makes no difference here: the job deletes both keys either way.
 */
module Debounce {
  import opened Wrappers
  import opened Reconciliation

  datatype Gathered = Gathered(reasons: set<Reason>, expires: int)

  /** `queue` holds the accounts of queued `reconcile_account` jobs; `running` the one the worker executes. */
  datatype State = State(
    now: int,
    flags: map<string, int>,
    reasons: map<string, Gathered>,
    queue: multiset<string>,
    running: Option<string>)

  const IDLE := State(0, map[], map[], multiset{}, None)

  predicate FlagLive(s: State, account: string) {
    account in s.flags && s.now < s.flags[account]
  }

  function ReasonsOf(s: State, account: string): set<Reason> {
    if account in s.reasons && s.now < s.reasons[account].expires then s.reasons[account].reasons else {}
  }

  datatype Action =
    | Add(account: string, reason: Reason)
    | CutShort(account: string)
    | Start(account: string)
    | Finish
    | Abort
    | Tick(delta: nat)

  /** `SET key NX EX ttl` */
  function Flagged(s: State, ttl: nat, account: string): map<string, int> {
    if FlagLive(s, account) then s.flags else s.flags[account := s.now + ttl]
  }

  /** `schedule_debounced_reconciliation` */
  function Scheduled(s: State, ttl: nat, account: string, reason: Reason): State {
    s.(flags := Flagged(s, ttl, account),
       reasons := s.reasons[account := Gathered(ReasonsOf(s, account) + {reason}, s.now + ttl)],
       queue := if FlagLive(s, account) then s.queue else s.queue + multiset{account})
  }

  /** The worker has one slot: a job starts when none is running, and reads the reasons first. */
  predicate CanStart(s: State, account: string) {
    s.running.None? && account in s.queue
  }

  /** What `smembers` gives the job. */
  function Snapshot(s: State, account: string): set<Reason> {
    if ReasonsOf(s, account) == {} then {STREAM_RECONNECTED} else ReasonsOf(s, account)
  }

  function Step(s: State, ttl: nat, a: Action): State {
    match a
    case Add(account, reason) => Scheduled(s, ttl, account, reason)
    // The caller dies between setting the flag and queueing the job.
    case CutShort(account) => s.(flags := Flagged(s, ttl, account))
    case Start(account) =>
      if CanStart(s, account) then s.(queue := s.queue - multiset{account}, running := Some(account)) else s
    // The job ends by deleting both keys.
    case Finish =>
      if s.running.Some? then
        s.(flags := s.flags - {s.running.value}, reasons := s.reasons - {s.running.value}, running := None)
      else s
    // The job ends by an exception or with its process: the keys stay.
    case Abort => s.(running := None)
    case Tick(delta) => s.(now := s.now + delta)
  }

  function Run(s: State, ttl: nat, actions: seq<Action>): State {
    if actions == [] then s else Step(Run(s, ttl, actions[..|actions| - 1]), ttl, actions[|actions| - 1])
  }

  /** For this account: no crash, and its flag does not expire before its job has ended. */
  predicate Smooth(s: State, a: Action, account: string) {
    match a
    case CutShort(x) => x != account
    case Abort => s.running != Some(account)
    case Tick(delta) => FlagLive(s, account) ==> s.now + delta < s.flags[account]
    case _ => true
  }

  predicate Orderly(ttl: nat, actions: seq<Action>, account: string) {
    actions == []
    || (Orderly(ttl, actions[..|actions| - 1], account)
        && Smooth(Run(IDLE, ttl, actions[..|actions| - 1]), actions[|actions| - 1], account))
  }

  // ------------------------------------------------------------- one call

  /**
   * Adding a reason, exactly: the flag is set for its time to live unless it stands, and a job queued only then; the reason
   * joins those that have not run out, and all of them live on for the whole time.
   */
  lemma AddExactly(s: State, ttl: nat, account: string, reason: Reason)
    ensures var t := Step(s, ttl, Add(account, reason));
            var stands := account in s.flags && s.now < s.flags[account];
            var kept := if account in s.reasons && s.now < s.reasons[account].expires then s.reasons[account].reasons else {};
            && t.now == s.now && t.running == s.running
            && t.flags == (if stands then s.flags else s.flags[account := s.now + ttl])
            && t.queue == (if stands then s.queue else s.queue + multiset{account})
            && t.reasons == s.reasons[account := Gathered(kept + {reason}, s.now + ttl)]
  {
  }

  /** The job is given the reasons that have not run out, or, if there are none, that the stream was connected again. */
  lemma JobIsGiven(s: State, account: string)
    ensures Snapshot(s, account)
         == if account in s.reasons && s.now < s.reasons[account].expires && s.reasons[account].reasons != {} then
              s.reasons[account].reasons
            else {STREAM_RECONNECTED}
  {
  }

  // ------------------------------------------------------------- the invariant

  ghost predicate Balanced(s: State, ttl: nat, account: string) {
    && s.queue[account] + (if s.running == Some(account) then 1 else 0) == (if FlagLive(s, account) then 1 else 0)
    && (ReasonsOf(s, account) != {} <==> FlagLive(s, account))
    && (FlagLive(s, account) ==>
          s.flags[account] <= s.now + ttl && account in s.reasons && s.flags[account] <= s.reasons[account].expires)
  }

  lemma StepBalanced(s: State, ttl: nat, a: Action, account: string)
    requires ttl > 0 && Balanced(s, ttl, account) && Smooth(s, a, account)
    ensures Balanced(Step(s, ttl, a), ttl, account)
  {
  }

  /** A live flag stands for exactly one job, queued or running, and for at least one reason. */
  lemma {:induction false} AlwaysBalanced(ttl: nat, actions: seq<Action>, account: string)
    requires ttl > 0 && Orderly(ttl, actions, account)
    ensures Balanced(Run(IDLE, ttl, actions), ttl, account)
  {
    hide Step, Smooth;
    if actions != [] {
      AlwaysBalanced(ttl, actions[..|actions| - 1], account);
      StepBalanced(Run(IDLE, ttl, actions[..|actions| - 1]), ttl, actions[|actions| - 1], account);
    }
  }

  // ------------------------------------------------------------- no lost wake-up

  predicate Pending(s: State, account: string, reason: Reason) {
    reason in ReasonsOf(s, account) && s.queue[account] == 1
  }

  /** The j-th action starts a reconciliation of the account that is given the reason. */
  predicate Consumes(ttl: nat, actions: seq<Action>, j: nat, account: string, reason: Reason)
    requires j < |actions|
  {
    && actions[j] == Start(account) && CanStart(Run(IDLE, ttl, actions[..j]), account)
    && reason in Snapshot(Run(IDLE, ttl, actions[..j]), account)
  }

  lemma StepPending(s: State, ttl: nat, a: Action, account: string, reason: Reason)
    requires Balanced(s, ttl, account) && Pending(s, account, reason) && Smooth(s, a, account) && ttl > 0
    ensures || Pending(Step(s, ttl, a), account, reason)
            || (a == Start(account) && CanStart(s, account) && reason in Snapshot(s, account))
  {
  }

  lemma AddedPending(s: State, ttl: nat, account: string, reason: Reason)
    requires ttl > 0 && Balanced(s, ttl, account) && s.running != Some(account)
    ensures Pending(Step(s, ttl, Add(account, reason)), account, reason)
  {
  }

  /**
   * A reason added while no job of its account is running (so every reason the single worker adds) is either
   * still in the set with exactly one queued job, or was given to a reconciliation that started after it was added.
   */
  lemma {:induction false} NoLostWakeUp(ttl: nat, actions: seq<Action>, i: nat, account: string, reason: Reason)
    requires ttl > 0 && Orderly(ttl, actions, account) && i < |actions| && actions[i] == Add(account, reason)
    requires Run(IDLE, ttl, actions[..i]).running != Some(account)
    ensures || Pending(Run(IDLE, ttl, actions), account, reason)
            || exists j :: i < j < |actions| && Consumes(ttl, actions, j, account, reason)
  {
    hide Step, Pending, Balanced, Snapshot, CanStart, Smooth;
    var n := |actions| - 1;
    var init, before := actions[..n], Run(IDLE, ttl, actions[..n]);
    AlwaysBalanced(ttl, init, account);
    if i == n {
      AddedPending(before, ttl, account, reason);
    } else {
      assert init[..i] == actions[..i] && init[i] == actions[i];
      NoLostWakeUp(ttl, init, i, account, reason);
      if Pending(before, account, reason) {
        StepPending(before, ttl, actions[n], account, reason);
        if !Pending(Step(before, ttl, actions[n]), account, reason) {
          assert Consumes(ttl, actions, n, account, reason);
        }
      } else {
        var j :| i < j < |init| && Consumes(ttl, init, j, account, reason);
        assert init[..j] == actions[..j];
        assert Consumes(ttl, actions, j, account, reason);
      }
    }
  }

  /** The end of a job leaves its account without reasons, flag and job, whatever was added meanwhile. */
  predicate Forgotten(s: State, account: string) {
    ReasonsOf(s, account) == {} && !FlagLive(s, account) && s.queue[account] == 0 && s.running != Some(account)
  }

  lemma StepForgets(s: State, ttl: nat, a: Action, account: string)
    requires Balanced(s, ttl, account) && Smooth(s, a, account)
    requires s.running == Some(account) || Forgotten(s, account)
    requires !(a.Add? && a.account == account) || s.running == Some(account)
    ensures Step(s, ttl, a).running == Some(account) || Forgotten(Step(s, ttl, a), account)
  {
  }

  /**
   * A reason added while a job of its account is running, as the stream listener or the API may do, is dropped
   * when that job ends: unless something is added to the account later, nothing is left that could ever start
   * a reconciliation for it.
   */
  lemma {:induction false} AddedDuringJobIsDropped(ttl: nat, actions: seq<Action>, i: nat, account: string)
    requires ttl > 0 && Orderly(ttl, actions, account)
    requires i < |actions| && actions[i].Add? && actions[i].account == account
    requires Run(IDLE, ttl, actions[..i]).running == Some(account)
    requires forall j :: i < j < |actions| && actions[j].Add? && actions[j].account == account ==>
               Run(IDLE, ttl, actions[..j]).running == Some(account)
    ensures Run(IDLE, ttl, actions).running == Some(account) || Forgotten(Run(IDLE, ttl, actions), account)
  {
    hide Step, Forgotten, Balanced, Smooth;
    var n := |actions| - 1;
    var init := actions[..n];
    AlwaysBalanced(ttl, init, account);
    if i < n {
      assert init[..i] == actions[..i] && init[i] == actions[i];
      forall j | i < j < |init| && init[j].Add? && init[j].account == account
        ensures Run(IDLE, ttl, init[..j]).running == Some(account)
      {
        assert init[..j] == actions[..j];
      }
      AddedDuringJobIsDropped(ttl, init, i, account);
    }
    StepForgets(Run(IDLE, ttl, init), ttl, actions[n], account);
  }

  // ------------------------------------------------------------- accounts

  /** The action belongs to the account: by name, or as the end of its running job. */
  predicate Concerns(s: State, a: Action, account: string) {
    match a
    case Add(x, _) => x == account
    case CutShort(x) => x == account
    case Start(x) => x == account
    case Finish => s.running == Some(account)
    case Abort => s.running == Some(account)
    case Tick(_) => false
  }

  ghost predicate SameKeys(s: State, t: State, account: string) {
    && (account in s.flags <==> account in t.flags) && (account in s.flags ==> s.flags[account] == t.flags[account])
    && (account in s.reasons <==> account in t.reasons)
    && (account in s.reasons ==> s.reasons[account] == t.reasons[account])
    && s.queue[account] == t.queue[account]
    && (s.running == Some(account) <==> t.running == Some(account))
  }

  /** What happens to one account leaves the keys and jobs of every other account alone. */
  lemma AccountsIndependent(s: State, ttl: nat, a: Action, account: string)
    requires !Concerns(s, a, account)
    ensures SameKeys(s, Step(s, ttl, a), account) && s.now <= Step(s, ttl, a).now
  {
  }

  // ------------------------------------------------------------- crashes and expiry

  predicate NoJob(s: State, account: string) {
    s.queue[account] == 0 && s.running != Some(account)
  }

  /** The flag stands but no job does. */
  predicate Silenced(s: State, account: string) {
    FlagLive(s, account) && NoJob(s, account)
  }

  /** An action silences the account exactly if its job aborts, or a caller dies between the flag and the job ... */
  lemma CrashSilences(s: State, ttl: nat, a: Action, account: string)
    requires ttl > 0 && Balanced(s, ttl, account)
    ensures Silenced(Step(s, ttl, a), account) <==>
              (a.Abort? && s.running == Some(account)) || (a == CutShort(account) && !FlagLive(s, account))
  {
  }

  lemma StepSilenced(s: State, ttl: nat, a: Action, account: string)
    requires Silenced(s, account)
    ensures var t := Step(s, ttl, a);
            && NoJob(t, account) && s.now <= t.now
            && account in t.flags && t.flags[account] == s.flags[account]
  {
  }

  /** ... and then no reason wakes the reconciliation up before the flag expires. */
  lemma {:induction false} SilencedUntilExpiry(s: State, ttl: nat, actions: seq<Action>, account: string)
    requires Silenced(s, account) && Run(s, ttl, actions).now < s.flags[account]
    ensures var e := Run(s, ttl, actions); Silenced(e, account) && e.flags[account] == s.flags[account]
  {
    hide Step;
    if actions != [] {
      var init := actions[..|actions| - 1];
      ClockRuns(Run(s, ttl, init), ttl, actions[|actions| - 1]);
      SilencedUntilExpiry(s, ttl, init, account);
      StepSilenced(Run(s, ttl, init), ttl, actions[|actions| - 1], account);
    }
  }

  lemma ClockRuns(s: State, ttl: nat, a: Action)
    ensures s.now <= Step(s, ttl, a).now
  {
  }

  predicate Untouched(actions: seq<Action>, account: string) {
    forall a :: a in actions ==> !((a.Add? || a.CutShort? || a.Start?) && a.account == account)
  }

  lemma {:induction false} OthersRun(s: State, ttl: nat, actions: seq<Action>, account: string)
    requires NoJob(s, account) && Untouched(actions, account)
    ensures SameKeys(s, Run(s, ttl, actions), account) && s.now <= Run(s, ttl, actions).now
  {
    hide Step;
    if actions != [] {
      var init := actions[..|actions| - 1];
      assert actions[|actions| - 1] in actions;
      OthersRun(s, ttl, init, account);
      AccountsIndependent(Run(s, ttl, init), ttl, actions[|actions| - 1], account);
    }
  }

  /**
   * The first reason after the flag has expired queues a job again. That job is given a reason gathered in silence
   * exactly if the new one comes before the last add plus the time to live of the reasons.
   */
  lemma SilentReasonsGiven(s: State, ttl: nat, account: string, last: Reason, between: seq<Action>,
                           reason: Reason, delay: nat, silent: Reason)
    requires Silenced(s, account) && Untouched(between, account) && delay < ttl
    requires silent in ReasonsOf(s, account) + {last}
    requires !FlagLive(Run(Step(s, ttl, Add(account, last)), ttl, between), account)
    ensures var d := Run(Step(s, ttl, Add(account, last)), ttl, between);
            var e := Step(Step(d, ttl, Add(account, reason)), ttl, Tick(delay));
            && e.queue[account] == 1
            && (silent in Snapshot(e, account) <==> d.now < s.now + ttl || silent == reason)
  {
    hide Run;
    var added := Step(s, ttl, Add(account, last));
    OthersRun(added, ttl, between, account);
  }

  /** A reason that is gone stays gone: it is given to no job unless it is added again. */
  lemma {:induction false} LostForGood(s: State, ttl: nat, actions: seq<Action>, account: string, reason: Reason)
    requires reason !in ReasonsOf(s, account) && Add(account, reason) !in actions
    ensures reason !in ReasonsOf(Run(s, ttl, actions), account)
  {
    hide Step;
    if actions != [] {
      var init := actions[..|actions| - 1];
      assert actions[|actions| - 1] in actions;
      LostForGood(s, ttl, init, account, reason);
      StaysLost(Run(s, ttl, init), ttl, actions[|actions| - 1], account, reason);
    }
  }

  lemma StaysLost(s: State, ttl: nat, a: Action, account: string, reason: Reason)
    requires reason !in ReasonsOf(s, account) && a != Add(account, reason)
    ensures reason !in ReasonsOf(Step(s, ttl, a), account)
  {
  }

  /** A job aborts, both keys expire, and the next reason comes alone: the first one is lost. */
  lemma SilentReasonLost(ttl: nat, account: string)
    requires ttl > 0
    ensures var s := Step(Step(Step(IDLE, ttl, Add(account, USER_TRADE)), ttl, Start(account)), ttl, Abort);
            var e := Step(Step(s, ttl, Tick(ttl)), ttl, Add(account, MANUAL));
            Silenced(s, account) && ReasonsOf(s, account) == {USER_TRADE}
            && e.queue[account] == 1 && Snapshot(e, account) == {MANUAL}
  {
  }

  /** A reason comes while a job is queued whose flag has expired. */
  predicate Doubles(s: State, a: Action, account: string) {
    a.Add? && a.account == account && s.queue[account] == 1 && !FlagLive(s, account)
  }

  /** Whatever happens next, a queued job gets a second one beside it exactly by such a reason. */
  lemma LateJobIsDoubled(s: State, ttl: nat, a: Action, account: string)
    requires s.queue[account] <= 1
    ensures Step(s, ttl, a).queue[account] > 1 <==> Doubles(s, a, account)
  {
  }

  predicate OneJobAt(ttl: nat, actions: seq<Action>, n: nat, account: string)
    requires n <= |actions|
  {
    Run(IDLE, ttl, actions[..n]).queue[account] <= 1
  }

  predicate DoublesAt(ttl: nat, actions: seq<Action>, n: nat, account: string)
    requires n < |actions|
  {
    Doubles(Run(IDLE, ttl, actions[..n]), actions[n], account)
  }

  lemma OneJobNext(ttl: nat, actions: seq<Action>, n: nat, account: string)
    requires n < |actions| && OneJobAt(ttl, actions, n, account)
    ensures OneJobAt(ttl, actions, n + 1, account) <==> !DoublesAt(ttl, actions, n, account)
  {
    hide Step, Doubles;
    LateJobIsDoubled(Run(IDLE, ttl, actions[..n]), ttl, actions[n], account);
    assert actions[..n + 1][..n] == actions[..n];
  }

  lemma {:induction false} OneJobAlong(ttl: nat, actions: seq<Action>, n: nat, account: string)
    requires n <= |actions| && forall i :: 0 <= i < n ==> !DoublesAt(ttl, actions, i, account)
    ensures OneJobAt(ttl, actions, n, account)
  {
    hide DoublesAt, Step;
    if n == 0 {
      assert actions[..0] == [];
    } else {
      OneJobAlong(ttl, actions, n - 1, account);
      OneJobNext(ttl, actions, n - 1, account);
    }
  }

  /** In every run, crashes and expiries included: there is never a second job exactly if no reason comes that late. */
  lemma OneJobExactly(ttl: nat, actions: seq<Action>, account: string)
    ensures (forall n :: 0 <= n <= |actions| ==> OneJobAt(ttl, actions, n, account))
       <==> (forall n :: 0 <= n < |actions| ==> !DoublesAt(ttl, actions, n, account))
  {
    hide OneJobAt, DoublesAt;
    if forall n :: 0 <= n < |actions| ==> !DoublesAt(ttl, actions, n, account) {
      forall n | 0 <= n <= |actions| ensures OneJobAt(ttl, actions, n, account) {
        OneJobAlong(ttl, actions, n, account);
      }
    } else if forall n :: 0 <= n <= |actions| ==> OneJobAt(ttl, actions, n, account) {
      var n :| 0 <= n < |actions| && DoublesAt(ttl, actions, n, account);
      OneJobNext(ttl, actions, n, account);
    }
  }

  // ------------------------------------------------------------- the Redis keys

  class Wakeups {
    const ttl: nat
    var now: int
    var flags: map<string, int>
    var reasons: map<string, Gathered>
    var queue: multiset<string>
    var running: Option<string>

    constructor (ttl: nat)
      ensures Keys() == IDLE && this.ttl == ttl
    {
      this.ttl := ttl;
      now, flags, reasons, queue, running := 0, map[], map[], multiset{}, None;
    }

    function Keys(): State
      reads this
    {
      State(now, flags, reasons, queue, running)
    }

    /** `SET key NX EX` */
    method SetIfAbsent(account: string) returns (created: bool)
      modifies this`flags
      ensures created <==> !FlagLive(old(Keys()), account)
      ensures flags == Flagged(old(Keys()), ttl, account)
    {
      created := account !in flags || flags[account] <= now;
      if created {
        flags := flags[account := now + ttl];
      }
    }

    /** `SADD` and `EXPIRE` */
    method AddReason(account: string, reason: Reason)
      modifies this`reasons
      ensures reasons == old(reasons)[account := Gathered(ReasonsOf(old(Keys()), account) + {reason}, now + ttl)]
    {
      var known := if account in reasons && now < reasons[account].expires then reasons[account].reasons else {};
      reasons := reasons[account := Gathered(known + {reason}, now + ttl)];
    }

    method ScheduleDebouncedReconciliation(account: string, reason: Reason)
      modifies this
      ensures Keys() == Step(old(Keys()), ttl, Add(account, reason))
    {
      var created := SetIfAbsent(account);
      AddReason(account, reason);
      if created {
        queue := queue + multiset{account};
      }
    }

    /** The job up to `smembers`. */
    method StartReconciliationJob(account: string) returns (given: set<Reason>)
      requires CanStart(Keys(), account)
      modifies this`queue, this`running
      ensures Keys() == Step(old(Keys()), ttl, Start(account))
      ensures given == Snapshot(old(Keys()), account) && given != {}
    {
      queue, running := queue - multiset{account}, Some(account);
      given := if account in reasons && now < reasons[account].expires then reasons[account].reasons else {};
      if given == {} {
        given := {STREAM_RECONNECTED};
      }
    }

    /** The job after the reconciliation. */
    method FinishReconciliationJob()
      requires running.Some?
      modifies this
      ensures Keys() == Step(old(Keys()), ttl, Finish)
    {
      flags, reasons, running := flags - {running.value}, reasons - {running.value}, None;
    }
  }
}
