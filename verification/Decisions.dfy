// Whatever a reconcile decides on in a reachable world is sound (PlanOk), so that with
// Preservation every reachable world satisfies the invariant.
module Decisions {
  import opened Api
  import opened Cluster
  import opened Invariant
  import opened Names
  import opened Preservation
  import opened Protocol
  import opened Runs
  import Versions
  import opened Wrappers

  /** The phase from which a stage is started. */
  function Before(stage: Stage): (r: Phase) {
    match stage
    case Freeze => Validating
    case Crd => FreezingOperations
    case Manager => CRDs
    case Fabric => ControllerManager
    case Rollback => RollingBack
  }

  /** The reads of a validation that pass all of its checks. */
  ghost predicate SeesAllWell(u: Upgrade, base: Cluster, o: Observation) {
    && o.identityRead && o.versionRead && o.backupRead && o.ready
    && DetectIn(base.manager).Some? && o.remotes.Some? && o.matrix.Some?
    && Versions.Gate(o.matrix.value, [Original(base)] + Versions.Defaulted(Original(base), o.remotes.value), u.target)
  }

  /** The reads of a verification that passes. */
  predicate SeesTarget(u: Upgrade, manager: Option<Workload>, o: Observation) {
    o.ready && o.versionRead && DetectIn(manager) == Some(u.target)
  }

  lemma PutIsOk(u: Upgrade, base: Cluster, t: Status, s: Status, f: Facts)
    requires Advances(s, t) && StatusOk(u, base, t, f)
    ensures PlanOk(u, base, Put(t, Done), s, f)
  {
    hide StatusOk;
    assert PlanOk(u, base, Done, t, f);
  }

  lemma CreateIsOk(u: Upgrade, base: Cluster, stage: Stage, job: JobSpec, created: Plan, refused: Plan, s: Status, f: Facts)
    requires CreateOk(u, base, stage, job, s.phase, f) && (stage.Rollback? ==> Settles(created) && Settles(refused))
    requires PlanOk(u, base, refused, s, f)
    requires forall t :: t != Never ==>
               PlanOk(u, base, created, s, WithTrack(f, stage, t)) && PlanOk(u, base, refused, s, WithTrack(f, stage, t))
    ensures PlanOk(u, base, Create(stage, job, created, refused), s, f)
  {
    hide CreateOk;
  }

  lemma FailIsOk(u: Upgrade, base: Cluster, s: Status, f: Facts)
    requires !Terminal(s.phase) && s.conditions in {[], [Compatible], [Compatible, RollbackRequired]} && !s.rolledBack
    requires s.totalStages == 9 && 0 <= s.currentStage <= 3
    ensures PlanOk(u, base, Fail(s), s, f)
  {
    PutIsOk(u, base, s.(phase := Failed), s, f);
  }

  lemma StartIsOk(u: Upgrade, base: Cluster, s: Status, stage: Stage, f: Facts)
    requires !stage.Rollback? && s.phase == Before(stage) && OnPath(s.phase, f)
    requires stage != Freeze ==> TrackOf(f, STAGES[Number(stage) - 2]) == Ended(true)
    requires s.lastSuccessfulPhase == if stage.Freeze? || stage.Crd? then NoPhase else s.phase
    requires Prepared(u, base, s, f) && s.conditions == [Compatible] && !s.rolledBack && StagesOk(s)
    ensures PlanOk(u, base, Start(u, s, stage), s, f)
  {
    hide PlanOk;
    var s1 := s.(currentStage := StageNumber(stage));
    var job, started, failed := BuildJob(u, s1, stage), s1.(phase := PhaseOf(stage)), s1.(phase := Failed);
    assert CreateOk(u, base, stage, job, s.phase, f);
    PutIsOk(u, base, failed, s, f);
    forall t | t != Never
      ensures PlanOk(u, base, Put(started, Done), s, WithTrack(f, stage, t))
      ensures PlanOk(u, base, Put(failed, Done), s, WithTrack(f, stage, t))
    {
      var g := WithTrack(f, stage, t);
      assert Prepared(u, base, started, g);
      PutIsOk(u, base, started, s, g);
      PutIsOk(u, base, failed, s, g);
    }
    hide CreateOk, Prepared, OnPath, StagesOk;
    CreateIsOk(u, base, stage, job, Put(started, Done), Put(failed, Done), s, f);
  }

  lemma StartRollbackIsOk(u: Upgrade, base: Cluster, s: Status, f: Facts)
    requires StatusOk(u, base, s, f) && 1 <= Rank(s.phase) && !s.rolledBack
    requires CreateOk(u, base, Rollback, BuildJob(u, s, Rollback), s.phase, f)
    ensures PlanOk(u, base, StartRollback(u, s), s, f)
  {
    hide PlanOk;
    FailIsOk(u, base, s, f);
    if !(u.autoRollback == Some(false) || !OwnsItsJobs(u)) {
      var started := s.(phase := RollingBack, conditions := s.conditions + [RollbackRequired]);
      forall t | t != Never
        ensures PlanOk(u, base, Put(started, Done), s, WithTrack(f, Rollback, t))
        ensures PlanOk(u, base, Fail(s), s, WithTrack(f, Rollback, t))
      {
        FailIsOk(u, base, s, WithTrack(f, Rollback, t));
        PutIsOk(u, base, started, s, WithTrack(f, Rollback, t));
      }
      hide CreateOk, StatusOk;
      CreateIsOk(u, base, Rollback, BuildJob(u, s, Rollback), Put(started, Done), Fail(s), s, f);
    }
  }

  /** The recorded stage is the last one that succeeded when a job of the current stage failed. */
  lemma RollbackJobIsOk(u: Upgrade, base: Cluster, s: Status, f: Facts)
    requires StatusOk(u, base, s, f) && 2 <= Rank(s.phase) <= 6
    requires s.phase.FreezingOperations? ==> f.freeze == Ended(false)
    requires s.phase.CRDs? ==> f.crd == Ended(false)
    requires s.phase.ControllerManager? ==> f.manager == Ended(false)
    requires s.phase.NetworkFabric? ==> f.fabric == Ended(false)
    ensures CreateOk(u, base, Rollback, BuildJob(u, s, Rollback), s.phase, f)
  {
  }

  lemma StageFailureIsOk(u: Upgrade, base: Cluster, s: Status, stage: Stage, f: Facts)
    requires StatusOk(u, base, s, f) && s.phase == PhaseOf(stage) && TrackOf(f, stage) == Ended(false)
    ensures PlanOk(u, base, StageFailed(u, s, stage), s, f)
  {
    if !stage.Rollback? {
      RollbackJobIsOk(u, base, s, f);
      StartRollbackIsOk(u, base, s, f);
    }
  }

  lemma StageSuccessIsOk(u: Upgrade, base: Cluster, s: Status, stage: Stage, f: Facts)
    requires StatusOk(u, base, s, f) && s.phase == PhaseOf(stage) && TrackOf(f, stage) == Ended(true)
    ensures PlanOk(u, base, StageSucceeded(u, s, stage), s, f)
  {
    var recorded := s.(phase := PhaseOf(stage), lastSuccessfulPhase := PhaseOf(stage));
    match stage
    case Freeze => StartIsOk(u, base, s, Crd, f);
    case Crd =>
      assert StatusOk(u, base, recorded, f) && Advances(s, recorded);
      StartIsOk(u, base, recorded, Manager, f);
      hide StatusOk, Start;
    case Manager =>
      assert StatusOk(u, base, recorded, f) && Advances(s, recorded);
      StartIsOk(u, base, recorded, Fabric, f);
      hide StatusOk, Start;
    case Fabric =>
      var verifying := recorded.(phase := Verifying);
      assert StatusOk(u, base, recorded, f) && Advances(s, recorded);
      PutIsOk(u, base, verifying, recorded, f);
      hide StatusOk;
    case Rollback => PutIsOk(u, base, s.(phase := Failed, rolledBack := true), s, f);
  }

  lemma MonitorIsOk(u: Upgrade, base: Cluster, s: Status, stage: Stage, job: Option<JobState>, f: Facts)
    requires StatusOk(u, base, s, f) && s.phase == PhaseOf(stage)
    requires job.Some? ==> Agrees(job.value, TrackOf(f, stage))
    ensures PlanOk(u, base, Monitor(u, s, stage, job), s, f)
  {
    hide StatusOk, PlanOk, StageSucceeded, StageFailed;
    TrivialPlanIsOk(u, base, s, f);
    if job == Some(Succeeded) { StageSuccessIsOk(u, base, s, stage, f); }
    if job == Some(FailedJob) { StageFailureIsOk(u, base, s, stage, f); }
  }

  lemma ValidationFinishedIsOk(u: Upgrade, base: Cluster, s: Status, ready: bool, f: Facts)
    requires StatusOk(u, base, s, f) && s.phase.Validating? && f.saved && (ready ==> f.gated)
    requires DetectIn(base.manager).Some? && OwnsItsJobs(u)
    ensures PlanOk(u, base, ValidationFinished(u, s, Original(base), ready), s, f)
  {
    var s1 := s.(backupName := BackupName(u), backupReady := true);
    FailIsOk(u, base, s1, f);
    if ready {
      var s2 := s1.(phase := Validating, previousVersion := Original(base), conditions := [Compatible]);
      assert Prepared(u, base, s2, f);
      StartIsOk(u, base, s2, Freeze, f);
      hide Start, Prepared;
    } else {
      PutIsOk(u, base, s1.(phase := Failed), s, f);
    }
  }

  lemma ValidateIsOk(u: Upgrade, base: Cluster, s: Status, o: Observation, f: Facts)
    requires StatusOk(u, base, s, f) && s.phase.Validating?
    requires SeesAllWell(u, base, o) ==> f.gated
    ensures PlanOk(u, base, Validate(u, s, base.manager, o), s, f)
  {
    FailIsOk(u, base, s, f);
    var plan := Validate(u, s, base.manager, o);
    if plan.Save? {
      var g := f.(saved := true);
      SavingIsAMove(f);
      StatusStays(u, base, s, f, g);
      FailIsOk(u, base, s, g);
      ValidationFinishedIsOk(u, base, s, o.ready, g);
      hide StatusOk, ValidationFinished, Versions.Gate;
    }
  }

  lemma VerifyIsOk(u: Upgrade, base: Cluster, s: Status, manager: Option<Workload>, o: Observation, f: Facts)
    requires StatusOk(u, base, s, f) && s.phase.Verifying?
    requires SeesTarget(u, manager, o) ==> f.checked
    ensures PlanOk(u, base, Verify(u, s, manager, o), s, f)
  {
    RollbackJobIsOk(u, base, s, f);
    StartRollbackIsOk(u, base, s, f);
  }

  lemma {:induction false} DeletionIsOk(u: Upgrade, base: Cluster, stages: seq<Stage>, s: Status, f: Facts)
    ensures PlanOk(u, base, HandleDeletion(stages), s, f)
  {
    if |stages| > 0 { DeletionIsOk(u, base, stages[1..], s, f); }
  }

  lemma DispatchIsOk(u: Upgrade, base: Cluster, store: Store, o: Observation, f: Facts)
    requires StatusOk(u, base, store.status, f) && JobsOk(u, store, f) && ClusterOk(u, base, store.cluster, f)
    requires store.status.phase.Validating? && SeesAllWell(u, base, o) ==> f.gated
    requires store.status.phase.Verifying? && SeesTarget(u, store.cluster.manager, o) ==> f.checked
    ensures PlanOk(u, base, Dispatch(u, store.status, ViewOf(u, store, o), o), store.status, f)
  {
    hide PlanOk, StatusOk, SeesAllWell, SeesTarget, ClusterOk;
    var s, view := store.status, ViewOf(u, store, o);
    var stage := Watched(s.phase);
    if stage.Some? {
      if view.job.Some? { assert JobOf(u, store, stage.value).Some? by { LookupFindsOwnJobs(u, store, f, stage.value); } }
      MonitorIsOk(u, base, s, stage.value, view.job, f);
    } else if s.phase.Validating? {
      assert store.cluster.manager == base.manager by { ManagerIsUntouched(u, base, store, f); }
      ValidateIsOk(u, base, s, o, f);
    } else if s.phase.Verifying? {
      VerifyIsOk(u, base, s, view.manager, o, f);
    } else {
      TrivialPlanIsOk(u, base, s, f);
    }
  }

  lemma LookupFindsOwnJobs(u: Upgrade, store: Store, f: Facts, stage: Stage)
    requires JobsOk(u, store, f) && LookupKey(u, stage) in store.jobs
    ensures LookupKey(u, stage) == OwnKey(u, stage)
  {
  }

  lemma ManagerIsUntouched(u: Upgrade, base: Cluster, store: Store, f: Facts)
    requires StatusOk(u, base, store.status, f) && ClusterOk(u, base, store.cluster, f) && store.status.phase.Validating?
    ensures store.cluster.manager == base.manager
  {
  }

  lemma TrivialPlanIsOk(u: Upgrade, base: Cluster, s: Status, f: Facts)
    requires StatusOk(u, base, s, f)
    ensures PlanOk(u, base, Done, s, f)
    ensures s.phase.NoPhase? || s.phase.Pending? ==> PlanOk(u, base, BeginValidation(s), s, f)
  {
  }

  // ---------------------------------------------------------------- the theorem

  lemma BeginKeeps(u: Upgrade, base: Cluster, w: World, o: Observation)
    requires Inv(u, base, w) && Enabled(u, w, Begin(o))
    ensures Inv(u, base, Apply(u, w, Begin(o)))
  {
    hide StatusOk, PlanOk, JobsOk, OneLive, LogOk, MilestonesOk, ClusterOk, FactsOf, Dispatch, SeesAllWell, SeesTarget;
    var store, e := w.store, BeginEvent(w.store, o);
    var next := WithEvent(store, e);
    var f, g := FactsOf(u, base, store), FactsOf(u, base, next);
    NoteKeepsInv(u, base, w, e);
    assert JobsOk(u, store, g) && ClusterOk(u, base, store.cluster, g) by { SameJobsInLongerLog(u, base, store, e, f, g); }
    assert g.rollback == f.rollback by {
      FactsGrow(u, base, store, e);
      assert TrackOf(g, Rollback) == g.rollback && TrackOf(f, Rollback) == f.rollback;
    }
    DeletionIsOk(u, base, STAGES, store.status, g);
    TrivialPlanIsOk(u, base, store.status, g);
    GateIsRecorded(u, base, store, o, f, g);
    CheckIsRecorded(u, base, store, o, f, g);
    DispatchIsOk(u, base, store, o, g);
    var plan := Dispatch(u, store.status, ViewOf(u, store, o), o);
    assert PlanOk(u, base, AddFinalizer(plan), store.status, g) by { FinalizerIsOk(u, base, plan, store.status, g); }
  }

  lemma FinalizerIsOk(u: Upgrade, base: Cluster, plan: Plan, s: Status, f: Facts)
    requires PlanOk(u, base, plan, s, f)
    ensures PlanOk(u, base, AddFinalizer(plan), s, f)
  {
  }

  lemma SameJobsInLongerLog(u: Upgrade, base: Cluster, store: Store, e: Event, f: Facts, g: Facts)
    requires IsNote(e) && f == FactsOf(u, base, store) && g == FactsOf(u, base, WithEvent(store, e))
    requires JobsOk(u, store, f) && ClusterOk(u, base, store.cluster, f)
    ensures JobsOk(u, store, g) && ClusterOk(u, base, store.cluster, g)
  {
    FactsGrow(u, base, store, e);
    SameTracks(f, g);
  }

  lemma GateIsRecorded(u: Upgrade, base: Cluster, store: Store, o: Observation, f: Facts, g: Facts)
    requires f == FactsOf(u, base, store) && g == FactsOf(u, base, WithEvent(store, BeginEvent(store, o)))
    requires StatusOk(u, base, store.status, f) && ClusterOk(u, base, store.cluster, f)
    ensures store.status.phase.Validating? && SeesAllWell(u, base, o) ==> g.gated
  {
    FactsGrow(u, base, store, BeginEvent(store, o));
  }

  lemma CheckIsRecorded(u: Upgrade, base: Cluster, store: Store, o: Observation, f: Facts, g: Facts)
    requires f == FactsOf(u, base, store) && g == FactsOf(u, base, WithEvent(store, BeginEvent(store, o)))
    requires StatusOk(u, base, store.status, f) && MilestonesOk(u, store.log, f)
    ensures store.status.phase.Verifying? && SeesTarget(u, store.cluster.manager, o) ==> g.checked
  {
    if store.status.phase.Verifying? && SeesTarget(u, store.cluster.manager, o) {
      assert TrackOf(f, Fabric) == Ended(true);
      hide FactsOf, StatusOk, Gated;
      assert Reached(u, store.log, 2 * Number(Fabric));
      assert IsMilestone(u, 9, BeginEvent(store, o));
      AppendingMilestone(u, store.log, BeginEvent(store, o), 9);
      CheckedIsReached(u, base, WithEvent(store, BeginEvent(store, o)));
    }
  }

  lemma CheckedIsReached(u: Upgrade, base: Cluster, store: Store)
    ensures FactsOf(u, base, store).checked == Reached(u, store.log, 9)
  {
  }

  lemma StepKeepsInv(u: Upgrade, base: Cluster, w: World, step: Step)
    requires Inv(u, base, w) && Enabled(u, w, step)
    ensures Inv(u, base, Apply(u, w, step))
  {
    hide Inv, Apply;
    match step
    case Begin(o) => BeginKeeps(u, base, w, o);
    case Proceed(fault) =>
      if w.pending.Put? { PutKeeps(u, base, w, fault); }
      else if w.pending.Create? { CreateKeeps(u, base, w, fault); }
      else if w.pending.Save? { SaveKeeps(u, base, w, fault); }
      else { CleaningKeeps(u, base, w, fault); }
    case CutOff => CutOffKeeps(u, base, w);
    case JobWorks(stage, c) => JobWorksKeeps(u, base, w, stage, c);
    case JobEnds(stage, ok) => JobEndsKeeps(u, base, w, stage, ok);
    case JobExpires(_) => EnvironmentKeeps(u, base, w, step);
    case GatewaysDrift(_) => EnvironmentKeeps(u, base, w, step);
    case DeletionRequested => EnvironmentKeeps(u, base, w, step);
  }

  lemma InitialInv(u: Upgrade, w: World)
    requires Initial(u, w)
    ensures Inv(u, w.store.cluster, w)
  {
    var f := FactsOf(u, w.store.cluster, w.store);
    assert forall s :: TrackOf(f, s) == Never;
  }

  /** The invariant holds in every reachable world. */
  lemma {:induction false} RunKeepsInv(u: Upgrade, w: World, steps: seq<Step>)
    requires Initial(u, w) && Run(u, w, steps).Some?
    ensures Inv(u, w.store.cluster, Run(u, w, steps).value)
  {
    if |steps| == 0 {
      InitialInv(u, w);
    } else {
      var n := |steps| - 1;
      RunKeepsInv(u, w, steps[..n]);
      StepKeepsInv(u, w.store.cluster, Run(u, w, steps[..n]).value, steps[n]);
    }
  }
}
