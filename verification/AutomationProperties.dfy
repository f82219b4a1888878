/** At-most-once execution of automation cycles, over every sequence of deliveries, crashes and recoveries. */
module AutomationProperties {
  import opened Wrappers
  import opened RiskManager
  import opened Automation

  // ------------------------------------------------------------- the script of one delivery

  /** `current_step` only moves forward, from rank `low` to below rank `high`. */
  ghost predicate Rising(commits: seq<Commit>, low: nat, high: nat) {
    && (forall i :: 0 <= i < |commits| && commits[i].Stepped? ==> low <= StepRank(commits[i].step) < high)
    && (forall i, j :: 0 <= i < j < |commits| && commits[i].Stepped? && commits[j].Stepped? ==>
          StepRank(commits[i].step) < StepRank(commits[j].step))
  }

  lemma RisingAppend(a: seq<Commit>, b: seq<Commit>, low: nat, middle: nat, high: nat)
    requires low <= middle <= high && Rising(a, low, middle) && Rising(b, middle, high)
    ensures Rising(a + b, low, high)
  {
    hide StepRank;
  }

  lemma ExecutionRises(c: Cycle)
    ensures Rising(ExecutionPart(c), 7, 11)
  {
    assert Rising(SUCCESS, 10, 11);
    RisingAppend([Stepped(FINAL_RECONCILIATION)], SUCCESS, 9, 10, 11);
    RisingAppend([Stepped(EXECUTION_PLANNING), Stepped(MODE_EXECUTION)], [Stepped(FINAL_RECONCILIATION)] + SUCCESS, 7, 9, 11);
    RisingAppend([Stepped(EXECUTION_PLANNING), Stepped(MODE_EXECUTION)], [Finished(SKIPPED)], 7, 9, 11);
    RisingAppend([OtherSaved], SUCCESS, 7, 10, 11);
  }

  /** Within one delivery `current_step` is strictly increasing. */
  lemma StepsIncrease(c: Cycle)
    ensures Rising(Script(c), 0, 11)
  {
    hide Rising, ExecutionPart;
    ShortRises();
    ExecutionRises(c);
    RisingAppend([Stepped(REBALANCE_PLANNING)], ExecutionPart(c), 6, 7, 11);
    var rest := if c.mode.SIGNAL_ONLY? then SUCCESS else [Stepped(REBALANCE_PLANNING)] + ExecutionPart(c);
    RisingAppend(UP_TO_SIGNALS, rest, 2, 6, 11);
    RisingAppend([MarkedRunning], Pipeline(c), 2, 2, 11);
    var locked := if !c.lockFree then [OtherSaved, Finished(SKIPPED)] else [MarkedRunning] + Pipeline(c);
    RisingAppend([Stepped(ACCOUNT_SYNC)], locked, 1, 2, 11);
    var guarded := if c.mode.OFF? then [Finished(SKIPPED)]
                   else if c.killSwitch then [OtherSaved, Finished(SKIPPED)] else [Stepped(ACCOUNT_SYNC)] + locked;
    RisingAppend([Stepped(SAFETY_CHECK)], guarded, 0, 1, 11);
  }

  lemma ShortRises()
    ensures Rising([Stepped(SAFETY_CHECK)], 0, 1) && Rising([Stepped(ACCOUNT_SYNC)], 1, 2)
    ensures Rising([MarkedRunning], 2, 2) && Rising(UP_TO_SIGNALS, 2, 6) && Rising([Stepped(REBALANCE_PLANNING)], 6, 7)
    ensures Rising(SUCCESS, 6, 11)
    ensures Rising([Finished(SKIPPED)], 1, 11) && Rising([OtherSaved, Finished(SKIPPED)], 1, 11)
    ensures Rising([OtherSaved, Finished(SKIPPED)], 2, 11)
  {
  }

  /** The commits of each path, listed. */
  lemma PathsExactly(c: Cycle)
    ensures Script(c) ==
              if c.mode == OFF then [Stepped(SAFETY_CHECK), Finished(SKIPPED)]
              else if c.killSwitch then [Stepped(SAFETY_CHECK), OtherSaved, Finished(SKIPPED)]
              else if !c.lockFree then [Stepped(SAFETY_CHECK), Stepped(ACCOUNT_SYNC), OtherSaved, Finished(SKIPPED)]
              else
                [Stepped(SAFETY_CHECK), Stepped(ACCOUNT_SYNC), MarkedRunning, Stepped(PORTFOLIO_SYNC), OtherSaved,
                 Stepped(MARKET_DATA_SYNC), Stepped(SIGNAL_ANALYSIS), Stepped(PORTFOLIO_OPTIMIZATION)]
                + if c.mode == SIGNAL_ONLY then [Stepped(COMPLETED), Finished(SUCCEEDED)]
                  else
                    [Stepped(REBALANCE_PLANNING)]
                    + if !c.marketOpen then [OtherSaved, Stepped(COMPLETED), Finished(SUCCEEDED)]
                      else
                        [Stepped(EXECUTION_PLANNING), Stepped(MODE_EXECUTION)]
                        + if c.mode in {DRY_RUN, SANDBOX, REAL_MANUAL_CONFIRM} then
                            [Stepped(FINAL_RECONCILIATION), Stepped(COMPLETED), Finished(SUCCEEDED)]
                          else [Finished(SKIPPED)]
  {
    assert SUCCESS == [Stepped(COMPLETED), Finished(SUCCEEDED)];
    assert UP_TO_SIGNALS == [Stepped(PORTFOLIO_SYNC), OtherSaved, Stepped(MARKET_DATA_SYNC), Stepped(SIGNAL_ANALYSIS),
                             Stepped(PORTFOLIO_OPTIMIZATION)];
  }

  /** A cycle that executes orders leaves no step out, so it takes each of them once, in the order of the enumeration. */
  lemma FullCycleTakesEveryStep(c: Cycle)
    requires !c.killSwitch && c.lockFree && c.marketOpen && c.mode in {DRY_RUN, SANDBOX, REAL_MANUAL_CONFIRM}
    ensures forall step: CycleStep :: Stepped(step) in Script(c)
    ensures Rising(Script(c), 0, 11)
  {
    hide Rising;
    StepsIncrease(c);
    var guard := [Stepped(SAFETY_CHECK), Stepped(ACCOUNT_SYNC), MarkedRunning];
    var execution := [Stepped(EXECUTION_PLANNING), Stepped(MODE_EXECUTION), Stepped(FINAL_RECONCILIATION)];
    assert Script(c) == guard + UP_TO_SIGNALS + [Stepped(REBALANCE_PLANNING)] + execution + SUCCESS;
    forall step: CycleStep ensures Stepped(step) in guard + UP_TO_SIGNALS + [Stepped(REBALANCE_PLANNING)] + execution + SUCCESS {
      match step
      case SAFETY_CHECK => assert guard[0] == Stepped(step);
      case ACCOUNT_SYNC => assert guard[1] == Stepped(step);
      case PORTFOLIO_SYNC => assert UP_TO_SIGNALS[0] == Stepped(step);
      case MARKET_DATA_SYNC => assert UP_TO_SIGNALS[2] == Stepped(step);
      case SIGNAL_ANALYSIS => assert UP_TO_SIGNALS[3] == Stepped(step);
      case PORTFOLIO_OPTIMIZATION => assert UP_TO_SIGNALS[4] == Stepped(step);
      case REBALANCE_PLANNING =>
      case EXECUTION_PLANNING => assert execution[0] == Stepped(step);
      case MODE_EXECUTION => assert execution[1] == Stepped(step);
      case FINAL_RECONCILIATION => assert execution[2] == Stepped(step);
      case COMPLETED => assert SUCCESS[0] == Stepped(step);
    }
  }

  /** A pipeline never marks the run again, and finishes it last, skipped or with success right after COMPLETED. */
  ghost predicate InPipeline(commits: seq<Commit>, i: nat)
    requires i < |commits|
  {
    match commits[i]
    case MarkedRunning => false
    case Finished(status) =>
      && i == |commits| - 1
      && (status == SKIPPED || (status == SUCCEEDED && i > 0 && commits[i - 1] == Stepped(COMPLETED)))
    case _ => true
  }

  ghost predicate PipelineFormed(commits: seq<Commit>) {
    forall i: nat :: i < |commits| ==> InPipeline(commits, i)
  }

  ghost predicate OnlySteps(commits: seq<Commit>) {
    forall i :: 0 <= i < |commits| ==> commits[i].Stepped? || commits[i].OtherSaved?
  }

  lemma StepsThen(a: seq<Commit>, b: seq<Commit>)
    requires OnlySteps(a) && PipelineFormed(b)
    ensures PipelineFormed(a + b)
  {
    forall i: nat | i < |a + b| ensures InPipeline(a + b, i) {
      if i >= |a| {
        assert InPipeline(b, i - |a|);
      }
    }
  }

  lemma PipelineIsFormed(c: Cycle)
    ensures PipelineFormed(Pipeline(c))
  {
    assert PipelineFormed(SUCCESS) && OnlySteps(UP_TO_SIGNALS);
    StepsThen([OtherSaved], SUCCESS);
    StepsThen([Stepped(FINAL_RECONCILIATION)], SUCCESS);
    StepsThen([Stepped(EXECUTION_PLANNING), Stepped(MODE_EXECUTION)],
              if Plans(c.mode) then [Stepped(FINAL_RECONCILIATION)] + SUCCESS else [Finished(SKIPPED)]);
    StepsThen([Stepped(REBALANCE_PLANNING)], ExecutionPart(c));
    StepsThen(UP_TO_SIGNALS, if c.mode.SIGNAL_ONLY? then SUCCESS else [Stepped(REBALANCE_PLANNING)] + ExecutionPart(c));
  }

  /** The run is marked as running third or not at all, before any step of the pipeline. */
  ghost predicate Placed(commits: seq<Commit>, i: nat)
    requires i < |commits|
  {
    match commits[i]
    case Stepped(step) => step in {SAFETY_CHECK, ACCOUNT_SYNC} || (i > 2 && commits[2].MarkedRunning?)
    case MarkedRunning => i == 2
    case OtherSaved => true
    case Finished(status) =>
      && i == |commits| - 1
      && (status == SKIPPED || (status == SUCCEEDED && i > 2 && commits[i - 1] == Stepped(COMPLETED)))
  }

  ghost predicate WellFormed(commits: seq<Commit>) {
    forall i: nat :: i < |commits| ==> Placed(commits, i)
  }

  lemma ScriptWellFormed(c: Cycle)
    ensures WellFormed(Script(c))
  {
    hide Pipeline;
    PipelineIsFormed(c);
    var script := Script(c);
    if !c.mode.OFF? && !c.killSwitch && c.lockFree {
      MarkedThenPipeline(Pipeline(c));
      assert script == [Stepped(SAFETY_CHECK), Stepped(ACCOUNT_SYNC), MarkedRunning] + Pipeline(c);
    }
  }

  lemma MarkedThenPipeline(pipeline: seq<Commit>)
    requires PipelineFormed(pipeline)
    ensures WellFormed([Stepped(SAFETY_CHECK), Stepped(ACCOUNT_SYNC), MarkedRunning] + pipeline)
  {
    var all := [Stepped(SAFETY_CHECK), Stepped(ACCOUNT_SYNC), MarkedRunning] + pipeline;
    forall i: nat | i < |all| ensures Placed(all, i) {
      if i > 2 {
        assert InPipeline(pipeline, i - 3);
      }
    }
  }

  // ------------------------------------------------------------- the row along the script

  /** What every stored run satisfies. */
  ghost predicate RowValid(row: AutomationRun) {
    && (row.status.SUCCEEDED? ==> row.step == COMPLETED)
    && (row.status.PENDING? ==> row.step in {SAFETY_CHECK, ACCOUNT_SYNC})
  }

  /** Where the row stands after the first `n` commits of a script. */
  ghost predicate Along(script: seq<Commit>, n: nat, e: AutomationRun)
    requires n <= |script|
  {
    && RowValid(e)
    && (n > 2 && script[2].MarkedRunning? ==> !e.status.PENDING?)
    && (Terminal(e.status) ==> n == |script| > 0 && script[n - 1] == Finished(e.status))
    && (n > 0 && script[n - 1].Stepped? ==> e.step == script[n - 1].step)
  }

  lemma AlongNext(script: seq<Commit>, n: nat, e: AutomationRun, now: int)
    requires WellFormed(script) && n < |script| && Along(script, n, e)
    ensures Along(script, n + 1, Apply(e, now, script[n]))
  {
    assert Placed(script, n) && (n > 0 ==> Placed(script, n - 1));
  }

  lemma {:induction false} Progress(row: AutomationRun, now: int, script: seq<Commit>, n: nat)
    requires row.status.PENDING? && RowValid(row) && WellFormed(script) && n <= |script|
    ensures Along(script, n, ApplyAll(row, now, script[..n]))
    ensures ApplyAll(row, now, script[..n]).correlation == row.correlation
  {
    hide Along, WellFormed, RowValid;
    if n == 0 {
      AlongStart(script, row);
    } else {
      Progress(row, now, script, n - 1);
      assert script[..n][..n - 1] == script[..n - 1];
      AlongNext(script, n - 1, ApplyAll(row, now, script[..n - 1]), now);
    }
  }

  lemma AlongStart(script: seq<Commit>, row: AutomationRun)
    requires row.status.PENDING? && RowValid(row)
    ensures Along(script, 0, row)
  {
  }

  /** The number of script commits a delivery makes. */
  function Reach(c: Cycle, fault: Fault): (n: nat)
    ensures n <= |Script(c)|
  {
    if fault.NoFault? || fault.commits > |Script(c)| then |Script(c)| else fault.commits
  }

  lemma MadeIs(c: Cycle, fault: Fault)
    ensures Made(c, fault) == Script(c)[..Reach(c, fault)] + if fault.Failure? then [Finished(FAILED)] else []
  {
    hide Script;
    assert Script(c)[..|Script(c)|] == Script(c);
    assert First(Script(c), Reach(c, fault)) + [] == First(Script(c), Reach(c, fault));
    assert Script(c) + [] == Script(c);
  }

  /** The whole effect of a delivery on a pending run. */
  lemma DeliveryEffect(row: AutomationRun, now: int, c: Cycle, fault: Fault)
    requires row.status.PENDING? && RowValid(row)
    ensures var e, reached := ApplyAll(row, now, Made(c, fault)), ApplyAll(row, now, Script(c)[..Reach(c, fault)]);
            && e.correlation == row.correlation && RowValid(e) && Along(Script(c), Reach(c, fault), reached)
            && e == (if fault.Failure? then Apply(reached, now, Finished(FAILED)) else reached)
            && (MarkedRunning in Made(c, fault) ==> !e.status.PENDING?)
  {
    hide Script, ApplyAll, Along, WellFormed;
    ScriptWellFormed(c);
    MadeIs(c, fault);
    var n := Reach(c, fault);
    Progress(row, now, Script(c), n);
    ApplyNext(row, now, Script(c)[..n], Finished(FAILED));
    AssertAlong(Script(c), n, ApplyAll(row, now, Script(c)[..n]));
    MarkedThird(Script(c), n);
    assert Script(c)[..n] + [] == Script(c)[..n];
  }

  lemma AssertAlong(script: seq<Commit>, n: nat, e: AutomationRun)
    requires n <= |script| && Along(script, n, e)
    ensures RowValid(e) && (n > 2 && script[2].MarkedRunning? ==> !e.status.PENDING?)
  {
  }

  lemma MarkedThird(script: seq<Commit>, n: nat)
    requires WellFormed(script) && n <= |script|
    ensures MarkedRunning in script[..n] ==> n > 2 && script[2].MarkedRunning?
  {
    forall i: nat | i < n && script[i].MarkedRunning? ensures i == 2 {
      assert Placed(script, i);
    }
  }

  lemma ApplyNext(row: AutomationRun, now: int, commits: seq<Commit>, c: Commit)
    ensures ApplyAll(row, now, commits + [c]) == Apply(ApplyAll(row, now, commits), now, c)
  {
    assert (commits + [c])[..|commits|] == commits;
  }

  // ------------------------------------------------------------- how a delivery can end

  /** The cycle acts in this mode: it does not skip the run. */
  predicate Acts(c: Cycle) {
    && !c.mode.OFF? && !c.killSwitch && c.lockFree
    && (c.mode.SIGNAL_ONLY? || !c.marketOpen || c.mode in {DRY_RUN, SANDBOX, REAL_MANUAL_CONFIRM})
  }

  lemma ActsIs(c: Cycle)
    ensures Acts(c) <==>
              && c.mode != OFF && !c.killSwitch && c.lockFree
              && (c.mode == SIGNAL_ONLY || !c.marketOpen || c.mode in {DRY_RUN, SANDBOX, REAL_MANUAL_CONFIRM})
  {
  }

  lemma ScriptEnds(c: Cycle)
    ensures var script := Script(c);
            |script| > 1 && script[|script| - 1] == Finished(if Acts(c) then SUCCEEDED else SKIPPED)
  {
  }

  lemma LastCommit(row: AutomationRun, now: int, script: seq<Commit>)
    requires |script| > 0
    ensures script[..|script|] == script
    ensures script[|script| - 1].Finished? ==> ApplyAll(row, now, script).status == script[|script| - 1].status
  {
    hide Apply;
    FinishSets(ApplyAll(row, now, script[..|script| - 1]), now, script[|script| - 1]);
  }

  lemma FinishSets(row: AutomationRun, now: int, c: Commit)
    ensures c.Finished? ==> Apply(row, now, c).status == c.status
  {
  }

  /**
   * A delivered run succeeds exactly if the mode, the kill switch, the lock and the market let its cycle act, all its
   * commits were made, and nothing failed.
   */
  lemma SucceedsExactly(row: AutomationRun, now: int, c: Cycle, fault: Fault)
    requires row.status.PENDING? && RowValid(row)
    ensures ApplyAll(row, now, Made(c, fault)).status.SUCCEEDED? <==>
              && c.mode != OFF && !c.killSwitch && c.lockFree
              && (c.mode == SIGNAL_ONLY || !c.marketOpen || c.mode in {DRY_RUN, SANDBOX, REAL_MANUAL_CONFIRM})
              && (fault.NoFault? || (fault.Crash? && fault.commits >= |Script(c)|))
  {
    hide Script, ApplyAll, Made, Acts;
    DeliveryEffect(row, now, c, fault);
    ScriptEnds(c);
    ActsIs(c);
    var n := Reach(c, fault);
    if n == |Script(c)| {
      LastCommit(row, now, Script(c));
    }
  }

  /**
   * A terminal status is overwritten within its own delivery, by FAILED, exactly if the exception or the timeout
   * comes after the last commit, while the lock is released or a notification is sent.
   */
  lemma OverwrittenExactly(row: AutomationRun, now: int, c: Cycle, fault: Fault)
    requires row.status.PENDING? && RowValid(row)
    ensures var reached := ApplyAll(row, now, Script(c)[..Reach(c, fault)]);
            var e := ApplyAll(row, now, Made(c, fault));
            && (Terminal(reached.status) && e.status != reached.status <==>
                  fault.Failure? && fault.commits >= |Script(c)|)
            && e.step == reached.step
  {
    hide Script, ApplyAll, Made;
    DeliveryEffect(row, now, c, fault);
    ScriptEnds(c);
    ScriptWellFormed(c);
    var n := Reach(c, fault);
    if n == |Script(c)| {
      LastCommit(row, now, Script(c));
      assert Placed(Script(c), n - 1);
    }
  }

  /** The number of commits after which the run has left PENDING: marked as running, or skipped before that. */
  function LeavesPendingAfter(c: Cycle): nat {
    if c.mode.OFF? then 2 else if c.killSwitch then 3 else if c.lockFree then 3 else 4
  }

  lemma CommitsBeforeLeaving(c: Cycle, n: nat)
    requires n <= |Script(c)|
    ensures LeavesPendingAfter(c) <= |Script(c)|
    ensures n < LeavesPendingAfter(c) <==> NoEnding(Script(c)[..n])
  {
    hide Pipeline;
    var script, k := Script(c), LeavesPendingAfter(c);
    assert script[k - 1].MarkedRunning? || script[k - 1].Finished?;
    assert forall i :: 0 <= i < k - 1 ==> script[i].Stepped? || script[i].OtherSaved?;
  }

  /**
   * A delivered run is left PENDING exactly if its worker dies before the commit that marks it as running or skips
   * it. For a scheduled or event-triggered run that is for good (`PendingForever`).
   */
  lemma LeftPendingExactly(row: AutomationRun, now: int, c: Cycle, fault: Fault)
    requires row.status.PENDING? && RowValid(row)
    ensures ApplyAll(row, now, Made(c, fault)).status.PENDING? <==>
              fault.Crash? && fault.commits < LeavesPendingAfter(c)
  {
    hide Script, ApplyAll, Made;
    DeliveryEffect(row, now, c, fault);
    ScriptWellFormed(c);
    var n := Reach(c, fault);
    CommitsBeforeLeaving(c, n);
    PendingAlong(row, now, Script(c), n);
  }

  ghost predicate NoEnding(commits: seq<Commit>) {
    forall i :: 0 <= i < |commits| ==> commits[i].Stepped? || commits[i].OtherSaved?
  }

  lemma {:induction false} PendingAlong(row: AutomationRun, now: int, script: seq<Commit>, n: nat)
    requires row.status.PENDING? && WellFormed(script) && n <= |script|
    ensures ApplyAll(row, now, script[..n]).status.PENDING? <==> NoEnding(script[..n])
  {
    if n > 0 {
      PendingAlong(row, now, script, n - 1);
      assert Placed(script, n - 1);
      assert script[..n] == script[..n - 1] + [script[n - 1]];
      ApplyNext(row, now, script[..n - 1], script[n - 1]);
    }
  }

  // ------------------------------------------------------------- steps that go back

  /** After `n` commits the step is at least any that was taken. */
  lemma {:induction false} ReachedStep(row: AutomationRun, now: int, script: seq<Commit>, n: nat, i: nat)
    requires Rising(script, 0, 11) && i < n <= |script| && script[i].Stepped?
    ensures StepRank(ApplyAll(row, now, script[..n]).step) >= StepRank(script[i].step)
  {
    hide StepRank;
    assert script[..n] == script[..n - 1] + [script[n - 1]];
    ApplyNext(row, now, script[..n - 1], script[n - 1]);
    if i < n - 1 {
      ReachedStep(row, now, script, n - 1, i);
    }
  }

  lemma FirstCommits(c: Cycle)
    ensures |Script(c)| > 1 && Script(c)[0] == Stepped(SAFETY_CHECK)
    ensures if c.mode.OFF? || c.killSwitch then forall i :: 1 <= i < |Script(c)| ==> !Script(c)[i].Stepped?
            else Script(c)[1] == Stepped(ACCOUNT_SYNC)
  {
    hide Pipeline;
  }

  lemma {:induction false} FirstStepStays(row: AutomationRun, now: int, script: seq<Commit>, n: nat)
    requires 0 < n <= |script| && script[0].Stepped? && forall i :: 1 <= i < |script| ==> !script[i].Stepped?
    ensures ApplyAll(row, now, script[..n]).step == script[0].step
  {
    assert script[..n] == script[..n - 1] + [script[n - 1]];
    ApplyNext(row, now, script[..n - 1], script[n - 1]);
    if n > 1 {
      FirstStepStays(row, now, script, n - 1);
    }
  }

  /** The delivery makes a commit that takes the row's step back to one before the step it had. */
  ghost predicate TakesBack(row: AutomationRun, now: int, c: Cycle, fault: Fault) {
    exists k: nat :: k <= Reach(c, fault) && StepRank(ApplyAll(row, now, Script(c)[..k]).step) < StepRank(row.step)
  }

  /** A delivery takes the step of its pending run back exactly if it stands at ACCOUNT_SYNC and a commit is made. */
  lemma TakesBackExactly(row: AutomationRun, now: int, c: Cycle, fault: Fault)
    requires row.status.PENDING? && RowValid(row)
    ensures TakesBack(row, now, c, fault) <==> row.step == ACCOUNT_SYNC && Reach(c, fault) > 0
  {
    hide Script, Rising;
    var script := Script(c);
    FirstCommits(c);
    assert script[..0] == [];
    assert script[..1] == [] + [script[0]];
    ApplyNext(row, now, [], script[0]);
    assert ApplyAll(row, now, []) == row;
    if row.step == ACCOUNT_SYNC && Reach(c, fault) > 0 {
      assert StepRank(ApplyAll(row, now, script[..1]).step) < StepRank(row.step);
    }
  }

  /** It leaves the step behind exactly if, besides, the cycle ends within the safety check. */
  lemma EndsBackExactly(row: AutomationRun, now: int, c: Cycle, fault: Fault)
    requires row.status.PENDING? && RowValid(row)
    ensures StepRank(ApplyAll(row, now, Made(c, fault)).step) < StepRank(row.step) <==>
              row.step == ACCOUNT_SYNC && Reach(c, fault) > 0 && (Reach(c, fault) == 1 || c.mode.OFF? || c.killSwitch)
  {
    hide Script, ApplyAll, Made, Rising, Along;
    var script, n := Script(c), Reach(c, fault);
    DeliveryEffect(row, now, c, fault);
    FirstCommits(c);
    StepsIncrease(c);
    if n == 0 {
      assert script[..0] == [];
      NothingApplied(row, now);
    } else if n == 1 || c.mode.OFF? || c.killSwitch {
      OneStepOnly(row, now, c, n);
    } else {
      ReachedStep(row, now, script, n, 1);
    }
  }

  lemma NothingApplied(row: AutomationRun, now: int)
    ensures ApplyAll(row, now, []) == row
  {
  }

  lemma OneStepOnly(row: AutomationRun, now: int, c: Cycle, n: nat)
    requires 0 < n <= |Script(c)| && (n == 1 || c.mode.OFF? || c.killSwitch)
    ensures ApplyAll(row, now, Script(c)[..n]).step == SAFETY_CHECK
  {
    hide Script;
    FirstCommits(c);
    if n == 1 {
      FirstStepStays(row, now, Script(c)[..1], 1);
      assert Script(c)[..1][..1] == Script(c)[..1];
    } else {
      FirstStepStays(row, now, Script(c), n);
    }
  }

  // ------------------------------------------------------------- all runs

  ghost predicate Valid(s: Runs) {
    && (forall id :: id in s.rows ==> id < s.nextId && RowValid(s.rows[id]))
    && (forall x, y :: x in s.rows && y in s.rows && s.rows[x].correlation == s.rows[y].correlation ==> x == y)
  }

  /** What an action does to the rows: it may add one, change one pending one, or fail stale running ones. */
  lemma StepRow(s: Runs, a: Action, id: nat)
    requires Valid(s)
    ensures var t := Step(s, a);
            && s.nextId <= t.nextId
            && (id in s.rows ==>
                  && id in t.rows && t.rows[id].correlation == s.rows[id].correlation && RowValid(t.rows[id])
                  && (!s.rows[id].status.PENDING? ==>
                        t.rows[id] == if a.RecoverStale? then Recovered(s.rows[id], a.threshold, a.now) else s.rows[id]))
            && (id in t.rows && id !in s.rows ==>
                  !a.RecoverStale? && id == s.nextId < t.nextId && RowValid(t.rows[id])
                  && t.rows[id].correlation == a.correlation && !Known(s, a.correlation))
  {
    hide Made, ApplyAll, RowValid;
    if a.Deliver? {
      var resolved := Resolve(s, a.correlation, a.runId);
      if resolved.Some? {
        var row := if a.runId.Some? then s.rows[resolved.value] else NewRun(a.correlation, a.now);
        NewRunValid(a.correlation, a.now);
        DeliveryEffect(row, a.now, a.cycle, a.fault);
      }
    } else if a.Request? {
      NewRunValid(a.correlation, a.now);
    } else if id in s.rows {
      RecoveredValid(s.rows[id], a.threshold, a.now);
    }
  }

  lemma NewRunValid(correlation: CorrelationId, now: int)
    ensures RowValid(NewRun(correlation, now)) && RowValid(NewRun(correlation, now).(status := FAILED))
    ensures NewRun(correlation, now).status.PENDING?
  {
  }

  lemma RecoveredValid(row: AutomationRun, threshold: int, now: int)
    requires RowValid(row)
    ensures RowValid(Recovered(row, threshold, now))
  {
  }

  lemma StepValid(s: Runs, a: Action)
    requires Valid(s)
    ensures Valid(Step(s, a))
  {
    hide Step, RowValid;
    var t := Step(s, a);
    forall id | id in t.rows ensures id < t.nextId && RowValid(t.rows[id]) {
      StepRow(s, a, id);
    }
    forall x, y | x in t.rows && y in t.rows && t.rows[x].correlation == t.rows[y].correlation ensures x == y {
      StepRow(s, a, x);
      StepRow(s, a, y);
    }
  }

  /** One run per correlation id; a success is complete; a run still pending has not entered the pipeline's steps. */
  lemma {:induction false} AlwaysValid(s: Runs, actions: seq<Action>)
    requires Valid(s)
    ensures Valid(Run(s, actions))
  {
    hide Step, Valid;
    if actions != [] {
      AlwaysValid(s, actions[..|actions| - 1]);
      StepValid(Run(s, actions[..|actions| - 1]), actions[|actions| - 1]);
    }
  }

  lemma NoneValid()
    ensures Valid(NONE)
  {
  }

  // ------------------------------------------------------------- one action

  /** Recovery, exactly: a running run not heard of since the threshold is failed now, and every other run stays. */
  lemma RecoveryExactly(s: Runs, threshold: int, now: int, id: nat)
    ensures var t := Step(s, RecoverStale(threshold, now));
            && t.nextId == s.nextId && t.rows.Keys == s.rows.Keys
            && (id in s.rows ==>
                  var row := s.rows[id];
                  t.rows[id] == if row.status == RUNNING && row.heartbeat < threshold then
                                  AutomationRun(row.correlation, FAILED, row.step, now)
                                else row)
  {
  }

  /** A requested run, exactly: a new id gets a pending run, failed at once if its job cannot be queued. */
  lemma RequestExactly(s: Runs, correlation: CorrelationId, now: int, queued: bool)
    ensures Step(s, Request(correlation, now, queued))
         == if exists id :: id in s.rows && s.rows[id].correlation == correlation then s
            else Runs(s.rows[s.nextId := AutomationRun(correlation, if queued then PENDING else FAILED, SAFETY_CHECK, now)],
                      s.nextId + 1)
  {
  }

  /** Every commit of a step, of RUNNING and of an end is heard of. */
  lemma CommitExactly(row: AutomationRun, now: int, c: Commit)
    ensures Apply(row, now, c)
         == match c
            case Stepped(step) => AutomationRun(row.correlation, row.status, step, now)
            case MarkedRunning => AutomationRun(row.correlation, RUNNING, row.step, now)
            case Finished(status) => AutomationRun(row.correlation, status, row.step, now)
            case OtherSaved => row
  {
  }

  // ------------------------------------------------------------- at most once

  /** The action takes the run of this correlation id into the pipeline. */
  ghost predicate Enters(s: Runs, a: Action, correlation: CorrelationId) {
    && a.Deliver? && Resolve(s, a.correlation, a.runId).Some?
    && (if a.runId.Some? then s.rows[a.runId.value].correlation else a.correlation) == correlation
    && MarkedRunning in Made(a.cycle, a.fault)
  }

  ghost function Entries(actions: seq<Action>, correlation: CorrelationId): nat {
    if actions == [] then 0
    else
      Entries(actions[..|actions| - 1], correlation)
      + if Enters(Run(NONE, actions[..|actions| - 1]), actions[|actions| - 1], correlation) then 1 else 0
  }

  /** A run of this correlation id that has left PENDING. */
  ghost predicate Left(s: Runs, correlation: CorrelationId) {
    exists id :: id in s.rows && s.rows[id].correlation == correlation && !s.rows[id].status.PENDING?
  }

  lemma EnteringLeaves(s: Runs, a: Action, correlation: CorrelationId)
    requires Valid(s) && Enters(s, a, correlation)
    ensures !Left(s, correlation) && Left(Step(s, a), correlation)
  {
    hide Made, ApplyAll;
    var id := Resolve(s, a.correlation, a.runId).value;
    var row := if a.runId.Some? then s.rows[id] else NewRun(a.correlation, a.now);
    NewRunValid(a.correlation, a.now);
    DeliveryEffect(row, a.now, a.cycle, a.fault);
    assert Step(s, a).rows[id] == ApplyAll(row, a.now, Made(a.cycle, a.fault));
  }

  lemma LeftStays(s: Runs, a: Action, correlation: CorrelationId)
    requires Valid(s) && Left(s, correlation)
    ensures Left(Step(s, a), correlation)
  {
    hide Step;
    var id :| id in s.rows && s.rows[id].correlation == correlation && !s.rows[id].status.PENDING?;
    StepRow(s, a, id);
  }

  /** The pipeline is entered at most once per correlation id, whatever is delivered again, crashes or is recovered. */
  lemma {:induction false} EnteredAtMostOnce(actions: seq<Action>, correlation: CorrelationId)
    ensures Entries(actions, correlation) <= 1
    ensures Entries(actions, correlation) == 1 ==> Left(Run(NONE, actions), correlation)
  {
    hide Step, Enters, Left, Valid;
    if actions != [] {
      var init, a := actions[..|actions| - 1], actions[|actions| - 1];
      var s := Run(NONE, init);
      EnteredAtMostOnce(init, correlation);
      NoneValid();
      AlwaysValid(NONE, init);
      if Enters(s, a, correlation) {
        EnteringLeaves(s, a, correlation);
      } else if Left(s, correlation) {
        LeftStays(s, a, correlation);
      }
    }
  }

  /** Once a correlation id is known, every later delivery that names no run is ignored, and it stays known. */
  lemma {:induction false} DuplicatesIgnored(s: Runs, actions: seq<Action>, correlation: CorrelationId,
                                             cycle: Cycle, now: int, fault: Fault)
    requires Valid(s) && Known(s, correlation)
    ensures Known(Run(s, actions), correlation)
    ensures var t := Run(s, actions); Step(t, Deliver(correlation, None, cycle, now, fault)) == t
  {
    hide Valid;
    if actions != [] {
      var init, a := actions[..|actions| - 1], actions[|actions| - 1];
      DuplicatesIgnored(s, init, correlation, cycle, now, fault);
      AlwaysValid(s, init);
      var d := Run(s, init);
      var id :| id in d.rows && d.rows[id].correlation == correlation;
      StepRow(d, a, id);
      assert id in Run(s, actions).rows && Run(s, actions).rows[id].correlation == correlation;
    }
  }

  // ------------------------------------------------------------- final statuses, restarts, stuck runs

  /** A terminal run is never changed again, by any later delivery or recovery. */
  lemma {:induction false} TerminalAbsorbing(s: Runs, actions: seq<Action>, id: nat)
    requires Valid(s) && id in s.rows && Terminal(s.rows[id].status)
    ensures id in Run(s, actions).rows && Run(s, actions).rows[id] == s.rows[id]
  {
    hide Step, Valid;
    if actions != [] {
      var init := actions[..|actions| - 1];
      TerminalAbsorbing(s, init, id);
      AlwaysValid(s, init);
      StepRow(Run(s, init), actions[|actions| - 1], id);
    }
  }

  /**
   * Over all actions, a stored run's step goes back exactly if a delivery names it while it is pending at
   * ACCOUNT_SYNC, and ends or dies within the safety check.
   */
  lemma StepBackExactly(s: Runs, a: Action, id: nat)
    requires Valid(s) && id in s.rows
    ensures id in Step(s, a).rows
    ensures StepRank(Step(s, a).rows[id].step) < StepRank(s.rows[id].step) <==>
              && a.Deliver? && Resolve(s, a.correlation, a.runId) == Some(id) && s.rows[id].step == ACCOUNT_SYNC
              && Reach(a.cycle, a.fault) > 0
              && (Reach(a.cycle, a.fault) == 1 || a.cycle.mode.OFF? || a.cycle.killSwitch)
  {
    hide Made, ApplyAll, Script, RowValid, Valid;
    RowOfValid(s, id);
    if a.Deliver? && Resolve(s, a.correlation, a.runId) == Some(id) {
      EndsBackExactly(s.rows[id], a.now, a.cycle, a.fault);
    }
  }

  lemma RowOfValid(s: Runs, id: nat)
    requires Valid(s) && id in s.rows
    ensures RowValid(s.rows[id]) && id < s.nextId
  {
  }

  /** A run that crashed before it was marked is pending for ever, unless some delivery names it by its id. */
  lemma {:induction false} PendingForever(s: Runs, actions: seq<Action>, id: nat)
    requires Valid(s) && id in s.rows && s.rows[id].status.PENDING?
    requires forall a :: a in actions ==> !(a.Deliver? && a.runId == Some(id))
    ensures id in Run(s, actions).rows && Run(s, actions).rows[id] == s.rows[id]
  {
    hide Valid, Made, ApplyAll;
    if actions != [] {
      var init, a := actions[..|actions| - 1], actions[|actions| - 1];
      assert a in actions;
      PendingForever(s, init, id);
      AlwaysValid(s, init);
      IdsBelow(Run(s, init));
    }
  }

  lemma IdsBelow(s: Runs)
    requires Valid(s)
    ensures forall id :: id in s.rows ==> id < s.nextId
  {
  }
}
