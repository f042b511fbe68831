// What every run of the upgrade protocol guarantees.  A run starts in a world w with
// Initial(u, w); w.store.cluster is the cluster before the upgrade.
module Safety {
  import opened Api
  import Backup
  import opened Cluster
  import Decisions
  import opened Invariant
  import opened Names
  import Preservation
  import opened Protocol
  import opened Runs
  import Versions
  import opened Wrappers

  ghost predicate Reachable(u: Upgrade, w: World, steps: seq<Step>) {
    Initial(u, w) && Run(u, w, steps).Some?
  }

  ghost function End(u: Upgrade, w: World, steps: seq<Step>): (r: Store)
    requires Reachable(u, w, steps)
  {
    Run(u, w, steps).value.store
  }

  ghost predicate Unfinished(u: Upgrade, store: Store, key: JobKey) {
    key in store.jobs && key.upgrade == u.name && store.jobs[key].state.Running?
  }

  /** At most one job of an upgrade is unfinished, whatever calls fail, wherever a
      reconcile is cut off and whenever finished jobs expire. */
  lemma AtMostOneUnfinishedJob(u: Upgrade, w: World, steps: seq<Step>, k: JobKey, l: JobKey)
    requires Reachable(u, w, steps)
    requires Unfinished(u, End(u, w, steps), k) && Unfinished(u, End(u, w, steps), l)
    ensures k == l
  {
    Decisions.RunKeepsInv(u, w, steps);
    hide StatusOk, PlanOk, LogOk, MilestonesOk, ClusterOk, FactsOf, Run;
    var store := End(u, w, steps);
    assert k == OwnKey(u, k.stage) && l == OwnKey(u, l.stage);
    assert JobOf(u, store, k.stage).Some? && JobOf(u, store, l.stage).Some?;
  }

  // ---------------------------------------------------------------- the status

  ghost predicate Later(s: Status, t: Status) {
    && Rank(s.phase) <= Rank(t.phase) && LastRank(s) <= LastRank(t)
    && (Terminal(s.phase) ==> t == s)
  }

  lemma StepGoesForward(u: Upgrade, base: Cluster, w: World, step: Step)
    requires Inv(u, base, w) && Enabled(u, w, step)
    ensures Later(w.store.status, Apply(u, w, step).store.status)
  {
    hide StatusOk, StoreOk, FactsOf, Decide;
    if step.Proceed? && w.pending.Put? {
      assert Advances(w.store.status, w.pending.status);
    }
  }

  /** Phase and last successful phase never go back; Completed and Failed are final. */
  lemma {:induction false} StatusGoesForward(u: Upgrade, w: World, steps: seq<Step>, n: nat)
    requires Reachable(u, w, steps) && n <= |steps|
    ensures Run(u, w, steps[..n]).Some?
    ensures Later(Run(u, w, steps[..n]).value.store.status, End(u, w, steps).status)
  {
    if n == |steps| {
      assert steps[..n] == steps;
    } else {
      var front := steps[..|steps| - 1];
      StatusGoesForward(u, w, front, n);
      assert front[..n] == steps[..n];
      Decisions.RunKeepsInv(u, w, front);
      StepGoesForward(u, w.store.cluster, Run(u, w, front).value, steps[|steps| - 1]);
    }
  }

  /** The conditions tell the path taken, without repetitions. */
  lemma ConditionsTellThePath(u: Upgrade, w: World, steps: seq<Step>)
    requires Reachable(u, w, steps)
    ensures var s := End(u, w, steps).status;
            && (2 <= Rank(s.phase) <= 6 ==> s.conditions == [Compatible])
            && (s.phase.RollingBack? || s.rolledBack ==> s.conditions == [Compatible, RollbackRequired])
            && (s.phase.Completed? ==> s.conditions == [Compatible, Healthy])
            && (s.phase.Failed? ==> s.conditions in {[], [Compatible], [Compatible, RollbackRequired]})
            && (forall i, j :: 0 <= i < j < |s.conditions| ==> s.conditions[i] != s.conditions[j])
            && StagesOk(s)
  {
    hide StoreOk, PlanOk, FactsOf, OnPath, Prepared, LastSuccessOk, Run;
    Decisions.RunKeepsInv(u, w, steps);
  }

  // ---------------------------------------------------------------- completion

  /** A completed upgrade went through freeze, CRD, controller-manager and network-fabric
      jobs that succeeded in this order, and then saw a ready deployment at the target. */
  lemma CompletedHasAFullPast(u: Upgrade, w: World, steps: seq<Step>) returns (at: seq<nat>)
    requires Reachable(u, w, steps) && End(u, w, steps).status.phase.Completed?
    ensures var store := End(u, w, steps);
            && |at| == 9
            && (forall i :: 0 <= i < 9 ==> at[i] < |store.log| && IsMilestone(u, i + 1, store.log[at[i]]))
            && (forall i, j :: 0 <= i < j < 9 ==> at[i] < at[j])
            && store.status.lastSuccessfulPhase == NetworkFabric
            && store.status.backupName == "liqo-upgrade-env-backup-" + u.name && store.status.backupReady
            && DetectIn(w.store.cluster.manager) == Some(store.status.previousVersion)
            && store.backup == Some(Backup.BackupOf(w.store.cluster.manager.value))
            && "v" <= u.target
  {
    Decisions.RunKeepsInv(u, w, steps);
    at := MilestonesInOrder(u, End(u, w, steps).log, 9);
  }

  /** In a completed upgrade a rollback job exists or existed exactly if the write of
      RollingBack was lost, or one of Failed after a rollback job had been created. */
  lemma CompletedExcludesRollback(u: Upgrade, w: World, steps: seq<Step>)
    requires Reachable(u, w, steps) && End(u, w, steps).status.phase.Completed?
    ensures Latest(End(u, w, steps).log, Rollback) != Never <==> RollbackWriteLost(End(u, w, steps).log)
  {
    hide Inv, Run;
    Decisions.RunKeepsInv(u, w, steps);
    NothingPendsAfterTheEnd(u, w.store.cluster, Run(u, w, steps).value);
    LossNeedsRollback(u, w, steps);
  }

  lemma NothingPendsAfterTheEnd(u: Upgrade, base: Cluster, w: World)
    requires Inv(u, base, w) && w.store.status.phase.Completed?
    ensures Latest(w.store.log, Rollback) != Never ==> RollbackWriteLost(w.store.log)
  {
    hide StoreOk, StatusOk, RollbackWriteLost;
    assert !Settles(w.pending);
  }

  /** RollingBack is only ever to be written once a rollback job has been created. */
  lemma {:induction false} LossNeedsRollback(u: Upgrade, w: World, steps: seq<Step>)
    requires Reachable(u, w, steps)
    ensures RollbackWriteLost(End(u, w, steps).log) ==> Latest(End(u, w, steps).log, Rollback) != Never
  {
    if |steps| > 0 {
      var n := |steps| - 1;
      LossNeedsRollback(u, w, steps[..n]);
      Decisions.RunKeepsInv(u, w, steps[..n]);
      LossStepNeedsRollback(u, w.store.cluster, Run(u, w, steps[..n]).value, steps[n]);
    }
  }

  lemma LossStepNeedsRollback(u: Upgrade, base: Cluster, w: World, step: Step)
    requires Inv(u, base, w) && Enabled(u, w, step)
    requires RollbackWriteLost(w.store.log) ==> Latest(w.store.log, Rollback) != Never
    ensures var log := Apply(u, w, step).store.log;
            RollbackWriteLost(log) ==> Latest(log, Rollback) != Never
  {
    NewestEvent(u, w, step);
    if w.pending.Put? && w.pending.status.phase.RollingBack? { PendingRollbackWasCreated(u, base, w); }
    hide Inv, Apply, Enabled, Latest, RollbackWriteLost;
    var log := Apply(u, w, step).store.log;
    if log != w.store.log {
      var e := log[|w.store.log|];
      Appending(w.store.log, e, Rollback);
      AppendingLoss(w.store.log, e);
    }
  }

  lemma PendingRollbackWasCreated(u: Upgrade, base: Cluster, w: World)
    requires Inv(u, base, w) && w.pending.Put? && w.pending.status.phase.RollingBack?
    ensures Latest(w.store.log, Rollback) != Never
  {
    hide StoreOk, Latest, Reached, Gated, Prepared;
  }

  /** In a completed upgrade the CRD files of the target are applied and templates are at the
      target; so is every other component, unless a rollback was overlooked. */
  lemma CompletedIsAtTarget(u: Upgrade, w: World, steps: seq<Step>)
    requires Reachable(u, w, steps) && End(u, w, steps).status.phase.Completed?
    ensures var base, c := w.store.cluster, End(u, w, steps).cluster;
            && (!RollbackWriteLost(End(u, w, steps).log) ==> ManagerAt(c, u.target) && FabricAt(c, u.target))
            && TemplateAt(c.clientTemplate, u.target) && TemplateAt(c.serverTemplate, u.target)
            && CrdsAt(c, u.target) && OnlyApplied(base.crds, c.crds, u.target)
            && SameWorkloads(base, c)
  {
    hide RollbackWriteLost, MaySet, MaySetManager, MayPatch, OnlyApplied, CrdsAt, ManagerAt, FabricAt, TemplateAt, SameFabric;
    Decisions.RunKeepsInv(u, w, steps);
    ReachKeepsWorkloads(w.store.cluster, End(u, w, steps).cluster, u.target, Original(w.store.cluster));
    hide SameWorkloads;
  }

  // ---------------------------------------------------------------- the gate

  /** An upgrade that has left validation passed all checks of one and the same validation: the
      deployment was there with a version, the backup could be made, a replica was ready, and the
      target was listed under the exact string of the oldest version in sight. */
  lemma ValidationWasPassed(u: Upgrade, w: World, steps: seq<Step>) returns (e: Event, oldest: string)
    requires Reachable(u, w, steps)
    requires var phase := End(u, w, steps).status.phase;
             (2 <= Rank(phase) && !phase.Failed?) || Latest(End(u, w, steps).log, Freeze) != Never
    ensures e in End(u, w, steps).log && e.Looked? && e.phase.Validating?
    ensures e.o.identityRead && e.o.versionRead && e.o.backupRead && e.o.ready
    ensures e.o.remotes.Some? && e.o.matrix.Some?
    ensures var local := Original(w.store.cluster);
            && DetectIn(w.store.cluster.manager) == Some(local) == e.version
            && oldest in [local] + Versions.Defaulted(local, e.o.remotes.value)
            && Versions.Compare(oldest, local) <= 0
            && (forall v :: v != "" && Versions.Reported(v) in e.o.remotes.value ==> Versions.Compare(oldest, v) <= 0)
    ensures oldest in e.o.matrix.value && u.target in e.o.matrix.value[oldest]
    ensures Versions.ForwardOnly(e.o.matrix.value) ==> Versions.Compare(oldest, u.target) < 0
  {
    hide Versions.Compare, Versions.Oldest, Run, Latest;
    e := PassIsLogged(u, w, steps);
    var local := Original(w.store.cluster);
    var vs := [local] + Versions.Defaulted(local, e.o.remotes.value);
    oldest := Versions.Oldest(vs);
    var k := Versions.OldestIsLeftmostMinimum(vs);
    Versions.ReportedVersionsCount(local, e.o.remotes.value);
  }

  lemma PassIsLogged(u: Upgrade, w: World, steps: seq<Step>) returns (e: Event)
    requires Reachable(u, w, steps)
    requires var phase := End(u, w, steps).status.phase;
             (2 <= Rank(phase) && !phase.Failed?) || Latest(End(u, w, steps).log, Freeze) != Never
    ensures e in End(u, w, steps).log && PassesValidation(u, Original(w.store.cluster), e)
    ensures DetectIn(w.store.cluster.manager).Some?
  {
    Decisions.RunKeepsInv(u, w, steps);
    hide Run, PassesValidation, Reached, Latest;
    var log, local := End(u, w, steps).log, Original(w.store.cluster);
    assert Gated(u, w.store.cluster, log);
    var i :| 0 <= i < |log| && PassesValidation(u, local, log[i]);
    e := log[i];
  }

  // ---------------------------------------------------------------- rollback

  /** Every rollback job that was ever created goes back to the version found by
      validation, and is told the last stage whose latest job succeeded. */
  lemma RollbackJobsAreRight(u: Upgrade, w: World, steps: seq<Step>, job: JobSpec)
    requires Reachable(u, w, steps) && Created(Rollback, job) in End(u, w, steps).log
    ensures DetectIn(w.store.cluster.manager) == Some(job.version) && "v" <= job.version
    ensures job.namespace == JobNamespace(u) == u.home && job.backup == "liqo-upgrade-env-backup-" + u.name
    ensures var log := End(u, w, steps).log;
            && (job.lastPhase == NetworkFabric <==> Latest(log, Fabric) == Ended(true))
            && (job.lastPhase == ControllerManager <==> Latest(log, Manager) == Ended(true) != Latest(log, Fabric))
            && (job.lastPhase == CRDs <==> Latest(log, Crd) == Ended(true) != Latest(log, Manager)
                                           && Latest(log, Fabric) != Ended(true))
            && job.lastPhase in {NoPhase, CRDs, ControllerManager, NetworkFabric}
  {
    Decisions.RunKeepsInv(u, w, steps);
    var log := End(u, w, steps).log;
    var i :| 0 <= i < |log| && log[i] == Created(Rollback, job);
  }

  /** Every other job carries the target version. */
  lemma StageJobsAreRight(u: Upgrade, w: World, steps: seq<Step>, stage: Stage, job: JobSpec)
    requires Reachable(u, w, steps) && Created(stage, job) in End(u, w, steps).log && stage in {Crd, Manager, Fabric}
    ensures job.stage == stage && job.version == u.target && job.namespace == JobNamespace(u) == u.home
    ensures stage.Crd? || job.backup == "liqo-upgrade-env-backup-" + u.name
  {
    Decisions.RunKeepsInv(u, w, steps);
    var log := End(u, w, steps).log;
    var i :| 0 <= i < |log| && log[i] == Created(stage, job);
  }

  /** With autoRollback switched off, only these plans are made. */
  ghost predicate NoRollbackIn(plan: Plan) {
    match plan
    case Done => true
    case AddFinalizer(next) => NoRollbackIn(next)
    case Put(t, next) => !t.phase.RollingBack? && !t.rolledBack && NoRollbackIn(next)
    case Create(stage, _, a, b) => !stage.Rollback? && NoRollbackIn(a) && NoRollbackIn(b)
    case Save(_, a, b) => NoRollbackIn(a) && NoRollbackIn(b)
    case Delete(_, next) => NoRollbackIn(next)
    case RemoveFinalizer => true
  }

  lemma {:induction false} NoRollbackInDeletion(stages: seq<Stage>)
    ensures NoRollbackIn(HandleDeletion(stages))
  {
    if |stages| > 0 { NoRollbackInDeletion(stages[1..]); }
  }

  lemma WriteWithoutRollback(t: Status)
    requires !t.phase.RollingBack? && !t.rolledBack
    ensures NoRollbackIn(Put(t, Done)) && NoRollbackIn(Fail(t))
  {
    assert NoRollbackIn(Done);
  }

  lemma StartWithoutRollback(u: Upgrade, s: Status, stage: Stage)
    requires !s.phase.RollingBack? && !s.rolledBack && !stage.Rollback?
    ensures NoRollbackIn(Start(u, s, stage))
  {
    var s1 := s.(currentStage := StageNumber(stage));
    WriteWithoutRollback(s1.(phase := PhaseOf(stage)));
    WriteWithoutRollback(s1);
  }

  lemma SuccessWithoutRollback(u: Upgrade, s: Status, stage: Stage)
    requires !s.phase.RollingBack? && !s.rolledBack && !stage.Rollback?
    ensures NoRollbackIn(StageSucceeded(u, s, stage))
  {
    hide Start;
    var recorded := s.(phase := PhaseOf(stage), lastSuccessfulPhase := PhaseOf(stage));
    StartWithoutRollback(u, s, Crd);
    StartWithoutRollback(u, recorded, Manager);
    StartWithoutRollback(u, recorded, Fabric);
    WriteWithoutRollback(recorded.(phase := Verifying));
  }

  lemma ValidationWithoutRollback(u: Upgrade, s: Status, manager: Option<Workload>, o: Observation)
    requires !s.phase.RollingBack? && !s.rolledBack
    ensures NoRollbackIn(Validate(u, s, manager, o))
  {
    hide Start, Versions.Gate;
    WriteWithoutRollback(s);
    var plan := Validate(u, s, manager, o);
    if plan.Save? {
      var s1 := s.(backupName := BackupName(u), backupReady := true);
      WriteWithoutRollback(s1);
      var s2 := s1.(phase := Validating, previousVersion := DetectIn(manager).value, conditions := [Compatible]);
      StartWithoutRollback(u, s2, Freeze);
    }
  }

  lemma DispatchWithoutRollback(u: Upgrade, s: Status, view: View, o: Observation)
    requires u.autoRollback == Some(false) && !s.phase.RollingBack? && !s.rolledBack
    ensures NoRollbackIn(Dispatch(u, s, view, o))
  {
    hide StageSucceeded, Validate, Fail, NoRollbackIn;
    NothingIsNoRollback();
    WriteWithoutRollback(s);
    ValidationWithoutRollback(u, s, view.manager, o);
    WriteWithoutRollback(s.(phase := Validating, totalStages := 9, currentStage := 0));
    WriteWithoutRollback(s.(phase := Completed, conditions := s.conditions + [Healthy]));
    var stage := Watched(s.phase);
    if stage.Some? { SuccessWithoutRollback(u, s, stage.value); }
  }

  lemma NothingIsNoRollback()
    ensures NoRollbackIn(Done)
  {
  }

  /** With autoRollback switched off there is never a rollback: no job, no phase, no claim. */
  lemma {:induction false} SwitchedOffMeansNoRollback(u: Upgrade, w: World, steps: seq<Step>)
    requires Reachable(u, w, steps) && u.autoRollback == Some(false)
    ensures var store := End(u, w, steps);
            && (forall job :: Created(Rollback, job) !in store.log)
            && !store.status.phase.RollingBack? && !store.status.rolledBack
    ensures NoRollbackIn(Run(u, w, steps).value.pending)
  {
    if |steps| > 0 {
      var n := |steps| - 1;
      SwitchedOffMeansNoRollback(u, w, steps[..n]);
      StepWithoutRollback(u, Run(u, w, steps[..n]).value, steps[n]);
    }
  }

  lemma StepWithoutRollback(u: Upgrade, w: World, step: Step)
    requires Enabled(u, w, step) && u.autoRollback == Some(false)
    requires !w.store.status.phase.RollingBack? && !w.store.status.rolledBack && NoRollbackIn(w.pending)
    requires forall job :: Created(Rollback, job) !in w.store.log
    ensures var next := Apply(u, w, step);
            && !next.store.status.phase.RollingBack? && !next.store.status.rolledBack && NoRollbackIn(next.pending)
            && forall job :: Created(Rollback, job) !in next.store.log
  {
    NewestEvent(u, w, step);
    if step.Begin? {
      DispatchWithoutRollback(u, w.store.status, ViewOf(u, w.store, step.o), step.o);
      NoRollbackInDeletion(STAGES);
    }
    hide Dispatch, BeginEvent, Work, Goal, Latest;
  }

  // ---------------------------------------------------------------- the finalizer

  /** Before the finalizer is in place nothing has been done, and nothing else is about to be. */
  ghost predicate Guarded(w: World) {
    w.store.finalizer || w.store.gone
    || (&& w.store.status.phase in {NoPhase, Pending}
        && (forall i :: 0 <= i < |w.store.log| ==> !w.store.log[i].Created?)
        && (w.pending.Done? || w.pending.AddFinalizer?))
  }

  lemma StepKeepsGuarded(u: Upgrade, w: World, step: Step)
    requires Guarded(w) && Enabled(u, w, step)
    ensures Guarded(Apply(u, w, step))
  {
    NewestEvent(u, w, step);
    hide Dispatch, BeginEvent, Work, Goal, Latest;
  }

  /** The finalizer comes before anything else, so that whoever deletes an upgrade that has created
      a job finds it in the way. */
  lemma {:induction false} FinalizerComesFirst(u: Upgrade, w: World, steps: seq<Step>)
    requires Reachable(u, w, steps)
    ensures var store := End(u, w, steps);
            || store.finalizer || store.gone
            || (store.status.phase in {NoPhase, Pending} && forall stage, job :: Created(stage, job) !in store.log)
    ensures Guarded(Run(u, w, steps).value)
  {
    if |steps| > 0 {
      var n := |steps| - 1;
      FinalizerComesFirst(u, w, steps[..n]);
      StepKeepsGuarded(u, Run(u, w, steps[..n]).value, steps[n]);
    }
  }

  // ---------------------------------------------------------------- the cluster

  /** No run touches anything of a workload but images, and those it only sets to one of two
      versions; every part of the cluster stays as it was until a job of its stage (or a
      rollback) is created. */
  lemma UntouchedUntilItsStage(u: Upgrade, w: World, steps: seq<Step>)
    requires Reachable(u, w, steps)
    ensures var store, base := End(u, w, steps), w.store.cluster;
            && SameWorkloads(base, store.cluster)
            && WithinReach(base, store.cluster, u.target, Original(base))
            && (Latest(store.log, Crd) == Never ==> store.cluster.crds == base.crds)
            && (Latest(store.log, Fabric) == Never ==> SameFabric(base, store.cluster))
            && (Latest(store.log, Manager) == Never == Latest(store.log, Rollback) ==>
                  store.cluster.manager == base.manager)
  {
    Decisions.RunKeepsInv(u, w, steps);
    hide WithinReach, SameWorkloads;
    ReachKeepsWorkloads(w.store.cluster, End(u, w, steps).cluster, u.target, Original(w.store.cluster));
  }

  /** The fabric components and templates. */
  ghost predicate SameComponents(c: Cluster, d: Cluster) {
    && c.ipam == d.ipam && c.proxy == d.proxy && c.fabric == d.fabric
    && c.clientTemplate == d.clientTemplate && c.serverTemplate == d.serverTemplate
  }

  /** The network-fabric job has failed, and the reconciler is aware of it or gone further. */
  ghost predicate FabricFailed(store: Store) {
    Latest(store.log, Fabric) == Ended(false) && store.status.phase in {NetworkFabric, RollingBack, Failed}
  }

  lemma FabricStepIsLeftAlone(u: Upgrade, base: Cluster, w: World, step: Step)
    requires Inv(u, base, w) && Enabled(u, w, step) && FabricFailed(w.store)
    ensures var next := Apply(u, w, step);
            FabricFailed(next.store) && SameComponents(w.store.cluster, next.store.cluster)
  {
    StepGoesForward(u, base, w, step);
    Decisions.StepKeepsInv(u, base, w, step);
    hide Inv, Apply;
    FailedFabricIsFinal(u, base, w, step);
    ComponentsStay(u, base, w, step);
    PhaseAfterFabric(u, base, Apply(u, w, step));
  }

  lemma PhaseAfterFabric(u: Upgrade, base: Cluster, w: World)
    requires Inv(u, base, w) && Latest(w.store.log, Fabric) == Ended(false) && Rank(w.store.status.phase) >= 5
    ensures w.store.status.phase in {NetworkFabric, RollingBack, Failed}
  {
    hide PlanOk, StoreOk, Latest, Reached, Gated, Prepared;
  }

  lemma NoFabricJobRuns(u: Upgrade, base: Cluster, w: World, stage: Stage)
    requires Inv(u, base, w) && FabricFailed(w.store)
    requires JobOf(u, w.store, stage).Some? && JobOf(u, w.store, stage).value.state.Running?
    ensures stage != Fabric && stage == JobOf(u, w.store, stage).value.spec.stage
    ensures stage.Rollback? ==> !FabricReached(JobOf(u, w.store, stage).value.spec)
  {
    var f := FactsOf(u, base, w.store);
    assert TrackOf(f, Fabric) == Ended(false);
    hide PlanOk, StatusOk, FactsOf, OneLive, MilestonesOk, ClusterOk, Latest;
    Preservation.RunningJob(u, base, w.store, f, stage);
  }

  lemma ComponentsStay(u: Upgrade, base: Cluster, w: World, step: Step)
    requires Inv(u, base, w) && Enabled(u, w, step) && FabricFailed(w.store)
    ensures SameComponents(w.store.cluster, Apply(u, w, step).store.cluster)
  {
    if step.JobWorks? {
      NoFabricJobRuns(u, base, w, step.stage);
      WorkKeepsComponents(JobOf(u, w.store, step.stage).value.spec, w.store.cluster, step.cluster);
    }
    hide Inv, Decide, BeginEvent, Latest, FabricFailed, Work, Goal, JobOf, Enabled;
    if step.JobWorks? || step.GatewaysDrift? {
    } else {
      OnlyJobsChangeTheCluster(u, w, step);
      hide Apply, Call;
    }
  }

  lemma WorkKeepsComponents(job: JobSpec, c: Cluster, d: Cluster)
    requires Work(job, c, d) && job.stage != Fabric && (job.stage.Rollback? ==> !FabricReached(job))
    ensures SameComponents(c, d)
  {
  }

  lemma OnlyJobsChangeTheCluster(u: Upgrade, w: World, step: Step)
    requires Enabled(u, w, step) && !step.JobWorks? && !step.GatewaysDrift?
    ensures Apply(u, w, step).store.cluster == w.store.cluster
  {
    hide Decide, BeginEvent, Latest, Goal;
  }

  lemma FailedFabricIsFinal(u: Upgrade, base: Cluster, w: World, step: Step)
    requires Inv(u, base, w) && Enabled(u, w, step) && FabricFailed(w.store)
    ensures Latest(Apply(u, w, step).store.log, Fabric) == Ended(false)
  {
    if step.JobEnds? { NoFabricJobRuns(u, base, w, step.stage); }
    if step.Proceed? && w.pending.Create? { NoSecondFabricJob(u, base, w); }
    hide Inv;
    NewestEvent(u, w, step);
    hide Apply, Enabled;
    var log := Apply(u, w, step).store.log;
    if log != w.store.log { Appending(w.store.log, log[|w.store.log|], Fabric); }
  }

  lemma NoSecondFabricJob(u: Upgrade, base: Cluster, w: World)
    requires Inv(u, base, w) && FabricFailed(w.store) && w.pending.Create?
    ensures w.pending.stage != Fabric
  {
    hide StoreOk, StatusOk, FactsOf, Latest;
  }

  /** A step adds at most one event to the history. */
  lemma NewestEvent(u: Upgrade, w: World, step: Step)
    requires Enabled(u, w, step)
    ensures var before, after := w.store.log, Apply(u, w, step).store.log;
            && (after == before || (|after| == |before| + 1 && after == before + [after[|before|]]))
            && (after != before && after[|before|].Created? ==>
                  step.Proceed? && w.pending.Create? && after[|before|].stage == w.pending.stage)
            && (after != before && after[|before|].Finished? ==> step.JobEnds? && after[|before|].stage == step.stage)
            && (after != before && after[|before|].Lost? ==>
                  w.pending.Put? && after[|before|].phase == w.pending.status.phase)
  {
    hide Decide, Latest;
  }

  /** Once the network-fabric job has failed, its components stay as it left them, rollback
      or not: rollback goes back on them only after a successful network-fabric job. */
  lemma {:induction false} FailedFabricIsLeftAlone(u: Upgrade, w: World, steps: seq<Step>, n: nat)
    requires Reachable(u, w, steps) && n <= |steps|
    requires Run(u, w, steps[..n]).Some? && FabricFailed(Run(u, w, steps[..n]).value.store)
    ensures FabricFailed(End(u, w, steps))
    ensures SameComponents(Run(u, w, steps[..n]).value.store.cluster, End(u, w, steps).cluster)
  {
    if n == |steps| {
      assert steps[..n] == steps;
    } else {
      var front := steps[..|steps| - 1];
      assert front[..n] == steps[..n];
      FailedFabricIsLeftAlone(u, w, front, n);
      Decisions.RunKeepsInv(u, w, front);
      FabricStepIsLeftAlone(u, w.store.cluster, Run(u, w, front).value, steps[|steps| - 1]);
    }
  }
}
