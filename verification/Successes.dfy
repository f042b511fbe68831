// Which success a rollback job is told of: LAST_PHASE against the whole history of the jobs.
module Successes {
  import opened Api
  import opened Cluster
  import Decisions
  import opened Invariant
  import opened Names
  import Preservation
  import opened Protocol
  import opened Runs
  import opened Safety

  // ---------------------------------------------------------------- histories

  /** A job of the stage was created or ended. */
  predicate About(e: Event, stage: Stage) {
    (e.Created? || e.Finished?) && e.stage == stage
  }

  predicate Succeeded(log: seq<Event>, stage: Stage) { Finished(stage, true) in log }

  /** The last stage that ever succeeded, as LastSuccessfulPhase names it. */
  function HighestEver(log: seq<Event>): (phase: Phase) {
    if Succeeded(log, Fabric) then NetworkFabric
    else if Succeeded(log, Manager) then ControllerManager
    else if Succeeded(log, Crd) then CRDs
    else NoPhase
  }

  /** The stage's job was created again after a success, and has not succeeded since. */
  ghost predicate RepeatedInVain(log: seq<Event>, stage: Stage) {
    exists i, j :: 0 <= i < j < |log|
      && log[i] == Finished(stage, true)
      && log[j].Created? && log[j].stage == stage
      && forall k :: j < k < |log| ==> log[k] != Finished(stage, true)
  }

  ghost predicate CreatedOnce(log: seq<Event>) {
    forall i, j :: 0 <= i < j < |log| && log[i].Created? && log[j].Created? ==> log[i].stage != log[j].stage
  }

  /** A job ends only while it runs. */
  ghost predicate Paired(log: seq<Event>) {
    forall k :: 0 <= k < |log| && log[k].Finished? ==> Latest(log[..k], log[k].stage) == Live
  }

  /** A stage's job is created only once the job before it has succeeded. */
  ghost predicate Chained(log: seq<Event>) {
    var ok := Ended(true);
    && (Latest(log, Crd) != Never ==> Latest(log, Freeze) == ok)
    && (Latest(log, Manager) != Never ==> Latest(log, Crd) == ok)
    && (Latest(log, Fabric) != Never ==> Latest(log, Manager) == ok)
  }

  /** Where the latest news of a stage stands in the history. */
  lemma {:induction false} LatestStands(log: seq<Event>, stage: Stage) returns (k: nat)
    requires exists m :: 0 <= m < |log| && About(log[m], stage)
    ensures k < |log| && About(log[k], stage)
    ensures Latest(log, stage) == if log[k].Created? then Live else Ended(log[k].ok)
    ensures forall m :: k < m < |log| ==> !About(log[m], stage)
  {
    var n := |log| - 1;
    if About(log[n], stage) {
      k := n;
    } else {
      var front := log[..n];
      var m :| 0 <= m < |log| && About(log[m], stage);
      assert front[m] == log[m];
      k := LatestStands(front, stage);
    }
  }

  lemma {:induction false} NoNews(log: seq<Event>, stage: Stage)
    requires forall m :: 0 <= m < |log| ==> !About(log[m], stage)
    ensures Latest(log, stage) == Never
  {
    if |log| > 0 { NoNews(log[..|log| - 1], stage); }
  }

  /** Before a job ended it was created, with nothing of its stage in between. */
  lemma CreatedBefore(log: seq<Event>, k: nat) returns (j: nat)
    requires Paired(log) && k < |log| && log[k].Finished?
    ensures j < k && log[j].Created? && log[j].stage == log[k].stage
    ensures forall m :: j < m < k ==> !About(log[m], log[k].stage)
  {
    var front, stage := log[..k], log[k].stage;
    if forall m :: 0 <= m < k ==> !About(front[m], stage) { NoNews(front, stage); }
    j := LatestStands(front, stage);
    forall m | j < m < k ensures !About(log[m], stage) { assert log[m] == front[m]; }
  }

  lemma VainMeansForgotten(log: seq<Event>, stage: Stage)
    requires RepeatedInVain(log, stage)
    ensures Succeeded(log, stage) && Latest(log, stage) != Ended(true)
  {
    var i, j :| 0 <= i < j < |log| && log[i] == Finished(stage, true)
      && log[j].Created? && log[j].stage == stage && forall k :: j < k < |log| ==> log[k] != Finished(stage, true);
    assert About(log[j], stage);
    var k := LatestStands(log, stage);
    assert j <= k;
    hide Latest;
  }

  /** Where the stage was last created. */
  lemma LastCreation(log: seq<Event>, stage: Stage) returns (j: nat)
    requires Paired(log) && Latest(log, stage) != Never
    ensures j < |log| && log[j].Created? && log[j].stage == stage
    ensures forall m :: j < m < |log| && About(log[m], stage) ==>
              log[m].Finished? && Latest(log, stage) == Ended(log[m].ok)
  {
    if forall m :: 0 <= m < |log| ==> !About(log[m], stage) { NoNews(log, stage); }
    var k := LatestStands(log, stage);
    hide Latest;
    if log[k].Created? {
      j := k;
    } else {
      j := CreatedBefore(log, k);
      hide Paired;
      assert forall m :: j < m < |log| && About(log[m], stage) ==> m == k;
    }
  }

  lemma ForgottenMeansVain(log: seq<Event>, stage: Stage)
    requires Paired(log) && Succeeded(log, stage) && Latest(log, stage) != Ended(true)
    ensures RepeatedInVain(log, stage)
  {
    SuccessIsNews(log, stage);
    var j := LastCreation(log, stage);
    hide Latest, Paired;
    var i :| 0 <= i < |log| && log[i] == Finished(stage, true);
    assert forall k :: j < k < |log| && log[k] == Finished(stage, true) ==> About(log[k], stage);
    assert i < j;
  }

  /** A success is forgotten exactly by repeating the stage in vain. */
  lemma RepetitionForgets(log: seq<Event>, stage: Stage)
    requires Paired(log)
    ensures RepeatedInVain(log, stage) <==> Succeeded(log, stage) && Latest(log, stage) != Ended(true)
  {
    hide Latest, Paired, RepeatedInVain;
    if RepeatedInVain(log, stage) { VainMeansForgotten(log, stage); }
    if Succeeded(log, stage) && Latest(log, stage) != Ended(true) { ForgottenMeansVain(log, stage); }
  }

  lemma OnceIsNotRepeated(log: seq<Event>, stage: Stage)
    requires Paired(log) && CreatedOnce(log)
    ensures !RepeatedInVain(log, stage)
  {
    if RepeatedInVain(log, stage) {
      var i, j :| 0 <= i < j < |log| && log[i] == Finished(stage, true) && log[j].Created? && log[j].stage == stage;
      var h := CreatedBefore(log, i);
      assert false;
    }
  }

  // ---------------------------------------------------------------- of runs

  /** What a creation waits for, and what it must not come after. */
  predicate MayFollow(log: seq<Event>, stage: Stage) {
    match stage
    case Freeze => Latest(log, Crd) == Latest(log, Manager) == Latest(log, Fabric) == Never
    case Crd => Latest(log, Freeze) == Ended(true) && Latest(log, Manager) == Latest(log, Fabric) == Never
    case Manager => Latest(log, Crd) == Ended(true) && Latest(log, Fabric) == Never
    case Fabric => Latest(log, Manager) == Ended(true)
    case Rollback => true
  }

  lemma CreationIsChained(u: Upgrade, base: Cluster, w: World)
    requires Inv(u, base, w) && w.pending.Create?
    ensures MayFollow(w.store.log, w.pending.stage)
  {
    hide StoreOk, StatusOk, Latest, Reached, Gated, Saved, JobOk, NoticeOk;
    var f := FactsOf(u, base, w.store);
    assert CreateOk(u, base, w.pending.stage, w.pending.job, w.store.status.phase, f);
  }

  lemma PairedGrows(log: seq<Event>, e: Event)
    requires Paired(log) && (e.Finished? ==> Latest(log, e.stage) == Live)
    ensures Paired(log + [e])
  {
    hide Latest;
    var next := log + [e];
    forall k | 0 <= k < |next| && next[k].Finished? ensures Latest(next[..k], next[k].stage) == Live {
      if k < |log| { assert next[..k] == log[..k] && next[k] == log[k]; } else { assert next[..k] == log; }
    }
  }

  lemma ChainGrows(log: seq<Event>, e: Event)
    requires Chained(log)
    requires e.Finished? ==> Latest(log, e.stage) == Live
    requires e.Created? ==> MayFollow(log, e.stage)
    ensures Chained(log + [e])
  {
    hide Latest;
    Appending(log, e, Freeze);
    Appending(log, e, Crd);
    Appending(log, e, Manager);
    Appending(log, e, Fabric);
  }

  lemma EndingJobRuns(u: Upgrade, base: Cluster, w: World, stage: Stage, ok: bool)
    requires Inv(u, base, w) && Enabled(u, w, JobEnds(stage, ok))
    ensures Latest(w.store.log, stage) == Live
  {
    hide StatusOk, PlanOk, OneLive, MilestonesOk, ClusterOk, FactsOf, JobOk, Latest, Goal;
    Preservation.RunningJob(u, base, w.store, FactsOf(u, base, w.store), stage);
    Preservation.TrackIsLatest(u, base, w.store, stage);
  }

  lemma StepKeepsHistory(u: Upgrade, base: Cluster, w: World, step: Step)
    requires Inv(u, base, w) && Enabled(u, w, step) && Paired(w.store.log) && Chained(w.store.log)
    ensures Paired(Apply(u, w, step).store.log) && Chained(Apply(u, w, step).store.log)
  {
    NewestEvent(u, w, step);
    if w.pending.Create? { CreationIsChained(u, base, w); }
    if step.JobEnds? { EndingJobRuns(u, base, w, step.stage, step.ok); }
    var log, next := w.store.log, Apply(u, w, step).store.log;
    hide Inv, Apply, Enabled, Latest, Paired, Chained, MayFollow;
    if next != log {
      PairedGrows(log, next[|log|]);
      ChainGrows(log, next[|log|]);
    }
  }

  /** In every history each job ends at most once, and each stage waits for the one before it. */
  lemma {:induction false} RunKeepsHistory(u: Upgrade, w: World, steps: seq<Step>)
    requires Reachable(u, w, steps)
    ensures Paired(End(u, w, steps).log) && Chained(End(u, w, steps).log)
  {
    if |steps| > 0 {
      var n := |steps| - 1;
      RunKeepsHistory(u, w, steps[..n]);
      Decisions.RunKeepsInv(u, w, steps[..n]);
      StepKeepsHistory(u, w.store.cluster, Run(u, w, steps[..n]).value, steps[n]);
    }
  }

  /** LAST_PHASE of every rollback job is the last stage that ever succeeded, exactly if no
      stage was created again after a success without succeeding again; in particular if no
      stage was created twice. */
  lemma RollbackJobsTellTheLastSuccess(u: Upgrade, w: World, steps: seq<Step>, job: JobSpec)
    requires Reachable(u, w, steps) && Created(Rollback, job) in End(u, w, steps).log
    ensures var log := End(u, w, steps).log;
            job.lastPhase == HighestEver(log) <==> forall s :: s in {Crd, Manager, Fabric} ==> !RepeatedInVain(log, s)
    ensures CreatedOnce(End(u, w, steps).log) ==> job.lastPhase == HighestEver(End(u, w, steps).log)
  {
    var log := End(u, w, steps).log;
    RunKeepsHistory(u, w, steps);
    RollbackJobsAreRight(u, w, steps, job);
    hide Run, Paired, Latest, RepeatedInVain, CreatedOnce, Succeeded;
    forall s ensures Latest(log, s) == Ended(true) ==> Succeeded(log, s) { SuccessIsRecorded(log, s); }
    forall s { RepetitionForgets(log, s); }
    forall s ensures Succeeded(log, s) ==> Latest(log, s) != Never { SuccessIsNews(log, s); }
    if CreatedOnce(log) { forall s { OnceIsNotRepeated(log, s); } }
  }

  lemma SuccessIsRecorded(log: seq<Event>, stage: Stage)
    ensures Latest(log, stage) == Ended(true) ==> Succeeded(log, stage)
  {
    if forall m :: 0 <= m < |log| ==> !About(log[m], stage) {
      NoNews(log, stage);
    } else {
      var k := LatestStands(log, stage);
    }
  }

  lemma SuccessIsNews(log: seq<Event>, stage: Stage)
    ensures Succeeded(log, stage) ==> Latest(log, stage) != Never
  {
    if Succeeded(log, stage) {
      var i :| 0 <= i < |log| && log[i] == Finished(stage, true);
      assert About(log[i], stage);
      var k := LatestStands(log, stage);
    }
  }
}
