// What one undisturbed reconcile comes to, phase by phase, told by its result: the status that is
// written and the jobs that are there afterwards.
module Outcomes {
  import opened Api
  import Backup
  import opened Cluster
  import opened Names
  import opened Protocol
  import opened Recovery
  import Strings
  import Versions
  import opened Wrappers

  /** The upgrade exists, can be read and is not being deleted. */
  predicate InOrder(store: Store, o: Observation) {
    o.upgradeRead && !store.deleting && !store.gone
  }

  /** The new status, and all jobs as before but for the one of the given stage, which is there now. */
  ghost predicate LeadsTo(u: Upgrade, before: Store, after: Store, status: Status, created: Option<Stage>) {
    && after.status == status && after.finalizer && after.cluster == before.cluster
    && (forall k :: k in before.jobs ==> k in after.jobs && after.jobs[k] == before.jobs[k])
    && (forall k :: k in after.jobs && k !in before.jobs ==> created.Some? && k == OwnKey(u, created.value))
    && (created.Some? ==> OwnKey(u, created.value) in after.jobs)
    && (created.Some? && OwnKey(u, created.value) !in before.jobs ==>
          after.jobs[OwnKey(u, created.value)].state.Running? && after.jobs[OwnKey(u, created.value)].spec.stage == created.value)
  }

  /** A rollback is begun, unless it is switched off or the job could not be owned. */
  ghost predicate LeadsToRollback(u: Upgrade, before: Store, after: Store) {
    var s := before.status;
    if u.autoRollback != Some(false) && u.home == JobNamespace(u) then
      LeadsTo(u, before, after, s.(phase := RollingBack, conditions := s.conditions + [RollbackRequired]), Some(Rollback))
    else
      LeadsTo(u, before, after, s.(phase := Failed), None)
  }

  lemma {:induction false} FineKeepsTheRest(u: Upgrade, store: Store, plan: Plan)
    requires Constructive(plan)
    ensures var after := Exec(u, store, plan, []).0;
            after.cluster == store.cluster && (store.finalizer ==> after.finalizer)
    decreases Length(plan)
  {
    if !plan.Done? {
      var r := Call(u, store, plan, Fine);
      FineKeepsTheRest(u, r.0, r.1);
    }
  }

  /** The result of a reconcile, from the plan that it decides on. */
  lemma PlanLeadsTo(u: Upgrade, store: Store, o: Observation, created: Option<Stage>)
    requires InOrder(store, o)
    requires var plan := Dispatch(u, store.status, ViewOf(u, store, o), o);
             && Creations(plan).Keys == (if created.Some? then {created.value} else {})
             && (created.Some? ==> Creations(plan)[created.value].stage == created.value)
    ensures var plan := Dispatch(u, store.status, ViewOf(u, store, o), o);
            LeadsTo(u, store, Reconcile(u, store, o, []).0, LastStatus(plan, store.status), created)
  {
    var rest := Dispatch(u, store.status, ViewOf(u, store, o), o);
    DispatchResumes(u, store.status, ViewOf(u, store, o), o);
    hide Dispatch, ResumesThroughout;
    var begun := WithEvent(store, BeginEvent(store, o));
    var ready := begun.(finalizer := true);
    assert Reconcile(u, store, o, []).0 == Exec(u, ready, rest, []).0 by { FinalizerFirst(u, store, o); }
    FineStatus(u, ready, rest);
    FineKeepsJobs(u, ready, rest);
    FineCreatesJobs(u, ready, rest);
    FineKeepsTheRest(u, ready, rest);
    hide Exec;
  }

  lemma FinalizerFirst(u: Upgrade, store: Store, o: Observation)
    requires InOrder(store, o)
    ensures var rest := Dispatch(u, store.status, ViewOf(u, store, o), o);
            Reconcile(u, store, o, []).0
            == Exec(u, WithEvent(store, BeginEvent(store, o)).(finalizer := true), rest, []).0
  {
    hide Dispatch;
    var begun := WithEvent(store, BeginEvent(store, o));
    if store.finalizer {
      assert begun.(finalizer := true) == begun;
    } else {
      var rest := Dispatch(u, store.status, ViewOf(u, store, o), o);
      assert Call(u, begun, AddFinalizer(rest), Fine) == (begun.(finalizer := true), rest);
    }
  }

  lemma WriteLeads(t: Status, s: Status)
    ensures LastStatus(Put(t, Done), s) == t && Creations(Put(t, Done)) == map[]
  {
    assert LastStatus(Done, t) == t && Creations(Done) == map[];
  }

  lemma WriteFirst(t: Status, next: Plan, s: Status)
    ensures LastStatus(Put(t, next), s) == LastStatus(next, t) && Creations(Put(t, next)) == Creations(next)
  {
  }

  lemma RollbackPlanLeadsTo(u: Upgrade, store: Store, o: Observation)
    requires InOrder(store, o)
    requires Dispatch(u, store.status, ViewOf(u, store, o), o) == StartRollback(u, store.status)
    ensures LeadsToRollback(u, store, Reconcile(u, store, o, []).0)
  {
    hide Dispatch, LeadsTo, Reconcile, LastStatus, Creations;
    var s := store.status;
    var t := s.(phase := RollingBack, conditions := s.conditions + [RollbackRequired]);
    WriteLeads(t, s);
    WriteLeads(s.(phase := Failed), s);
    if u.autoRollback != Some(false) && u.home == JobNamespace(u) {
      var plan := StartRollback(u, s);
      CreateLeads(plan, s);
      PlanLeadsTo(u, store, o, Some(Rollback));
    } else {
      PlanLeadsTo(u, store, o, None);
    }
  }

  lemma CreateLeads(plan: Plan, s: Status)
    requires plan.Create?
    ensures LastStatus(plan, s) == LastStatus(plan.created, s)
    ensures Creations(plan) == Creations(plan.created)[plan.stage := plan.job]
  {
  }

  // ---------------------------------------------------------------- the laws

  /** A stage whose job failed is rolled back, if rollback is switched on, and fails otherwise. */
  lemma FailedStageIsRolledBack(u: Upgrade, store: Store, o: Observation, stage: Stage)
    requires InOrder(store, o) && o.jobRead && stage != Rollback && store.status.phase == PhaseOf(stage)
    requires JobAt(store.jobs, LookupKey(u, stage)) == Some(FailedJob)
    ensures LeadsToRollback(u, store, Reconcile(u, store, o, []).0)
  {
    assert Dispatch(u, store.status, ViewOf(u, store, o), o) == StartRollback(u, store.status);
    RollbackPlanLeadsTo(u, store, o);
  }

  /** Verification completes the upgrade exactly if a replica is ready and the version is the
      target; otherwise it is rolled back. */
  lemma VerificationDecides(u: Upgrade, store: Store, o: Observation)
    requires InOrder(store, o) && store.status.phase.Verifying?
    ensures var s, after := store.status, Reconcile(u, store, o, []).0;
            if o.ready && o.versionRead && DetectIn(store.cluster.manager) == Some(u.target) then
              LeadsTo(u, store, after, s.(phase := Completed, conditions := s.conditions + [Healthy]), None)
            else LeadsToRollback(u, store, after)
  {
    hide LeadsTo, LeadsToRollback, Reconcile;
    var s := store.status;
    if o.ready && o.versionRead && DetectIn(store.cluster.manager) == Some(u.target) {
      WriteLeads(s.(phase := Completed, conditions := s.conditions + [Healthy]), s);
      PlanLeadsTo(u, store, o, None);
    } else {
      RollbackPlanLeadsTo(u, store, o);
    }
  }

  /** A rollback ends as its job does. */
  lemma RollbackJobDecides(u: Upgrade, store: Store, o: Observation, ok: bool)
    requires InOrder(store, o) && o.jobRead && store.status.phase.RollingBack?
    requires JobAt(store.jobs, LookupKey(u, Rollback)) == Some(if ok then Succeeded else FailedJob)
    ensures LeadsTo(u, store, Reconcile(u, store, o, []).0, store.status.(phase := Failed, rolledBack := ok), None)
  {
    hide LeadsTo, Reconcile;
    WriteLeads(store.status.(phase := Failed, rolledBack := ok), store.status);
    PlanLeadsTo(u, store, o, None);
  }

  /** After a success the stage is recorded and the next one begun, or verification after the last.  If
      the next job could not be owned, the reconcile stops at what it has recorded. */
  lemma SuccessfulStageLeadsOn(u: Upgrade, store: Store, o: Observation, stage: Stage)
    requires InOrder(store, o) && o.jobRead && stage != Rollback && store.status.phase == PhaseOf(stage)
    requires JobAt(store.jobs, LookupKey(u, stage)) == Some(Succeeded)
    ensures var s, after, owned := store.status, Reconcile(u, store, o, []).0, u.home == JobNamespace(u);
            match stage
            case Freeze =>
              if owned then LeadsTo(u, store, after, s.(phase := CRDs, currentStage := 1), Some(Crd))
              else LeadsTo(u, store, after, s, None)
            case Crd =>
              var recorded := s.(lastSuccessfulPhase := CRDs);
              if owned then LeadsTo(u, store, after, recorded.(phase := ControllerManager, currentStage := 2), Some(Manager))
              else LeadsTo(u, store, after, recorded, None)
            case Manager =>
              var recorded := s.(lastSuccessfulPhase := ControllerManager);
              if owned then LeadsTo(u, store, after, recorded.(phase := NetworkFabric, currentStage := 3), Some(Fabric))
              else LeadsTo(u, store, after, recorded, None)
            case Fabric => LeadsTo(u, store, after, s.(phase := Verifying, lastSuccessfulPhase := NetworkFabric), None)
            case Rollback => true
  {
    hide LeadsTo, Reconcile, LastStatus, Creations, Start;
    var s, owned := store.status, u.home == JobNamespace(u);
    var recorded := s.(phase := PhaseOf(stage), lastSuccessfulPhase := PhaseOf(stage));
    match stage
    case Freeze =>
      StartLeadsTo(u, s, Crd);
      PlanLeadsTo(u, store, o, if owned then Some(Crd) else None);
    case Crd =>
      StartLeadsTo(u, recorded, Manager);
      WriteFirst(recorded, Start(u, recorded, Manager), s);
      PlanLeadsTo(u, store, o, if owned then Some(Manager) else None);
    case Manager =>
      StartLeadsTo(u, recorded, Fabric);
      WriteFirst(recorded, Start(u, recorded, Fabric), s);
      PlanLeadsTo(u, store, o, if owned then Some(Fabric) else None);
    case Fabric =>
      WriteFirst(recorded, Put(recorded.(phase := Verifying), Done), s);
      WriteLeads(recorded.(phase := Verifying), recorded);
      PlanLeadsTo(u, store, o, None);
  }

  /** A job that still runs, is absent or cannot be read is waited for; a final phase is left alone. */
  lemma NothingToDo(u: Upgrade, store: Store, o: Observation)
    requires InOrder(store, o)
    requires match store.status.phase
             case FreezingOperations => !o.jobRead || JobAt(store.jobs, LookupKey(u, Freeze)) in {None, Some(Running)}
             case CRDs => !o.jobRead || JobAt(store.jobs, LookupKey(u, Crd)) in {None, Some(Running)}
             case ControllerManager => !o.jobRead || JobAt(store.jobs, LookupKey(u, Manager)) in {None, Some(Running)}
             case NetworkFabric => !o.jobRead || JobAt(store.jobs, LookupKey(u, Fabric)) in {None, Some(Running)}
             case RollingBack => !o.jobRead || JobAt(store.jobs, LookupKey(u, Rollback)) in {None, Some(Running)}
             case Completed => true
             case Failed => true
             case _ => false
    ensures LeadsTo(u, store, Reconcile(u, store, o, []).0, store.status, None)
  {
    hide LeadsTo, Reconcile;
    assert Dispatch(u, store.status, ViewOf(u, store, o), o) == Done;
    PlanLeadsTo(u, store, o, None);
  }

  /** A new upgrade goes into validation. */
  lemma NewUpgradeIsValidated(u: Upgrade, store: Store, o: Observation)
    requires InOrder(store, o) && store.status.phase in {NoPhase, Pending}
    ensures LeadsTo(u, store, Reconcile(u, store, o, []).0,
                    store.status.(phase := Validating, totalStages := 9, currentStage := 0), None)
  {
    hide LeadsTo, Reconcile;
    WriteLeads(store.status.(phase := Validating, totalStages := 9, currentStage := 0), store.status);
    PlanLeadsTo(u, store, o, None);
  }

  /** The version that the controller sees is the tag of the first container. */
  lemma DetectionReadsFirstImage(w: Workload, repo: string, tag: string)
    requires |w| > 0 && w[0].image == repo + ":" + tag && ':' !in tag
    ensures DetectIn(Some(w)) == Some(if "v" <= tag then tag else "v" + tag)
  {
    Strings.SplitOfConcat(repo, tag, ':');
    Strings.SplitOfAtom(tag, ':');
    assert w[0].image == repo + [':'] + tag;
  }

  /** Every check of a validation, as the reads answer them. */
  ghost predicate AllChecksPass(u: Upgrade, manager: Option<Workload>, o: Observation) {
    && manager.Some? && o.identityRead && o.versionRead && DetectIn(manager).Some?
    && o.remotes.Some? && o.matrix.Some?
    && (var local := DetectIn(manager).value;
        var oldest := Versions.Oldest([local] + Versions.Defaulted(local, o.remotes.value));
        oldest in o.matrix.value && u.target in o.matrix.value[oldest])
    && o.backupRead && u.home == JobNamespace(u) && o.ready
  }

  /** Validation goes on to freezing exactly if every check passes, with version and environment put
      on record; if not, the upgrade fails and nothing is started. */
  lemma ValidationDecides(u: Upgrade, store: Store, o: Observation)
    requires InOrder(store, o) && store.status.phase.Validating?
    ensures var s, manager, after := store.status, store.cluster.manager, Reconcile(u, store, o, []).0;
            if AllChecksPass(u, manager, o) then
              LeadsTo(u, store, after,
                      s.(phase := FreezingOperations, currentStage := 0, previousVersion := DetectIn(manager).value,
                         backupName := BackupName(u), backupReady := true, conditions := [Compatible]), Some(Freeze))
            else if AllChecksPass(u, manager, o.(ready := true)) then
              LeadsTo(u, store, after, s.(phase := Failed, backupName := BackupName(u), backupReady := true), None)
            else LeadsTo(u, store, after, s.(phase := Failed), None)
  {
    hide LeadsTo, Reconcile, LastStatus, Creations, Start, Versions.Oldest, Versions.Defaulted, Backup.BackupOf;
    var s, manager := store.status, store.cluster.manager;
    var plan := Dispatch(u, s, ViewOf(u, store, o), o);
    assert plan == Validate(u, s, manager, o);
    WriteLeads(s.(phase := Failed), s);
    if plan.Save? {
      SaveFirst(plan, s);
      var s1 := s.(backupName := BackupName(u), backupReady := true);
      WriteLeads(s1.(phase := Failed), s);
      if o.ready {
        var t := s1.(phase := Validating, previousVersion := DetectIn(manager).value, conditions := [Compatible]);
        WriteFirst(t, Start(u, t, Freeze), s);
        StartLeadsTo(u, t, Freeze);
        PlanLeadsTo(u, store, o, Some(Freeze));
      } else {
        PlanLeadsTo(u, store, o, None);
      }
    } else {
      PlanLeadsTo(u, store, o, None);
    }
  }

  lemma SaveFirst(plan: Plan, s: Status)
    requires plan.Save?
    ensures LastStatus(plan, s) == LastStatus(plan.saved, s) && Creations(plan) == Creations(plan.saved)
  {
  }

  /** An upgrade that cannot be read, is gone, or is deleted with its finalizer removed already is left alone. */
  lemma NobodyHome(u: Upgrade, store: Store, o: Observation, faults: seq<Fault>)
    requires !o.upgradeRead || store.gone || (store.deleting && !store.finalizer)
    ensures Reconcile(u, store, o, faults) == (store.(log := store.log + [BeginEvent(store, o)]), faults)
  {
  }

  // ---------------------------------------------------------------- failed creations

  /** The API refuses, or does not acknowledge, the creation of the next stage's job: the upgrade fails. */
  lemma FailedCreationFails(u: Upgrade, store: Store, o: Observation, stage: Stage, fault: Fault)
    requires InOrder(store, o) && store.finalizer && o.jobRead && stage in {Freeze, Crd, Manager}
    requires store.status.phase == PhaseOf(stage) && u.home == JobNamespace(u) && !fault.Fine?
    requires JobAt(store.jobs, LookupKey(u, stage)) == Some(Succeeded)
    ensures var faults := if stage.Freeze? then [fault] else [Fine, fault];
            var after := Reconcile(u, store, o, faults).0;
            var next := OwnKey(u, if stage.Freeze? then Crd else if stage.Crd? then Manager else Fabric);
            && after.status.phase == Failed
            && (next in after.jobs <==> next in store.jobs || fault.Unacknowledged?)
            && (forall k :: k in store.jobs ==> k in after.jobs)
            && (forall k :: k in after.jobs && k !in store.jobs ==> k == next)
  {
    var s, begun := store.status, WithEvent(store, BeginEvent(store, o));
    var plan := StageSucceeded(u, s, stage);
    assert Decide(u, store, o) == plan;
    hide Decide, Dispatch;
    if stage.Freeze? {
      CreationFault(u, begun, plan, [fault]);
    } else {
      var r := Call(u, begun, plan, Fine);
      assert Exec(u, begun, plan, [Fine, fault]) == Exec(u, r.0, r.1, [fault]) by {
        assert Tail([Fine, fault]) == [fault];
      }
      CreationFault(u, r.0, r.1, [fault]);
    }
  }

  lemma CreationFault(u: Upgrade, store: Store, plan: Plan, faults: seq<Fault>)
    requires plan.Create? && plan.refused.Put? && plan.refused.next.Done?
    requires |faults| == 1 && !faults[0].Fine?
    ensures Exec(u, store, plan, faults).0
         == (if faults[0].Refused? then store else WithJob(u, store, plan.stage, plan.job)).(status := plan.refused.status)
  {
    var r := Call(u, store, plan, faults[0]);
    assert Tail(faults) == [] && r.1 == plan.refused;
    var r1 := Call(u, r.0, r.1, Fine);
    assert Exec(u, store, plan, faults) == Exec(u, r.0, r.1, []) == Exec(u, r1.0, r1.1, []);
  }

  /** The job of the stage failed, or verification does not see the target ready. */
  predicate MustRollBack(u: Upgrade, store: Store, o: Observation) {
    match store.status.phase
    case FreezingOperations => o.jobRead && JobAt(store.jobs, LookupKey(u, Freeze)) == Some(FailedJob)
    case CRDs => o.jobRead && JobAt(store.jobs, LookupKey(u, Crd)) == Some(FailedJob)
    case ControllerManager => o.jobRead && JobAt(store.jobs, LookupKey(u, Manager)) == Some(FailedJob)
    case NetworkFabric => o.jobRead && JobAt(store.jobs, LookupKey(u, Fabric)) == Some(FailedJob)
    case Verifying => !o.ready || !o.versionRead || DetectIn(store.cluster.manager) != Some(u.target)
    case _ => false
  }

  /** The same for the rollback job: then there is no rollback. */
  lemma FailedRollbackCreationFails(u: Upgrade, store: Store, o: Observation, fault: Fault)
    requires InOrder(store, o) && store.finalizer && !fault.Fine?
    requires MustRollBack(u, store, o) && u.autoRollback != Some(false) && u.home == JobNamespace(u)
    ensures var after := Reconcile(u, store, o, [fault]).0;
            && after.status == store.status.(phase := Failed)
            && (OwnKey(u, Rollback) in after.jobs <==> OwnKey(u, Rollback) in store.jobs || fault.Unacknowledged?)
  {
    assert Dispatch(u, store.status, ViewOf(u, store, o), o) == StartRollback(u, store.status);
    hide Dispatch;
    CreationFault(u, WithEvent(store, BeginEvent(store, o)), StartRollback(u, store.status), [fault]);
  }

  /** So does a backup that cannot be written, ... */
  lemma FailedBackupFails(u: Upgrade, store: Store, o: Observation, fault: Fault)
    requires InOrder(store, o) && store.finalizer && store.status.phase.Validating? && !fault.Fine?
    requires AllChecksPass(u, store.cluster.manager, o.(ready := true))
    ensures var after := Reconcile(u, store, o, [fault]).0;
            after.status == store.status.(phase := Failed) && after.jobs == store.jobs
  {
    hide Versions.Oldest, Versions.Defaulted, Backup.BackupOf;
    var s, begun := store.status, WithEvent(store, BeginEvent(store, o));
    var plan := Validate(u, s, store.cluster.manager, o);
    assert Decide(u, store, o) == plan && plan.Save?;
    assert plan.failed == Fail(s);
    hide Decide, Validate;
    var r := Call(u, begun, plan, fault);
    assert Tail([fault]) == [];
    assert Exec(u, begun, plan, [fault]) == Exec(u, r.0, Fail(s), []);
    WritesLast(u, r.0, s.(phase := Failed));
  }

  /** ...and the first job of all that cannot be created. */
  lemma FailedFreezeCreationFails(u: Upgrade, store: Store, o: Observation, fault: Fault)
    requires InOrder(store, o) && store.finalizer && store.status.phase.Validating? && !fault.Fine?
    requires AllChecksPass(u, store.cluster.manager, o)
    ensures var after := Reconcile(u, store, o, [Fine, Fine, fault]).0;
            && after.status.phase == Failed
            && (OwnKey(u, Freeze) in after.jobs <==> OwnKey(u, Freeze) in store.jobs || fault.Unacknowledged?)
            && (forall k :: k in after.jobs && k !in store.jobs ==> k == OwnKey(u, Freeze))
  {
    hide Versions.Oldest, Versions.Defaulted, Backup.BackupOf;
    var s, begun := store.status, WithEvent(store, BeginEvent(store, o));
    var plan := Validate(u, s, store.cluster.manager, o);
    assert Decide(u, store, o) == plan && plan.Save? && plan.saved.Put? && plan.saved.next.Create?;
    assert plan.saved.next.refused.Put? && plan.saved.next.refused.next.Done? && plan.saved.next.refused.status.phase == Failed;
    assert plan.saved.next.stage == Freeze;
    hide Decide, Validate;
    var r := Call(u, begun, plan, Fine);
    var r1 := Call(u, r.0, r.1, Fine);
    assert Tail([Fine, Fine, fault]) == [Fine, fault] && Tail([Fine, fault]) == [fault];
    assert Exec(u, begun, plan, [Fine, Fine, fault]) == Exec(u, r.0, r.1, [Fine, fault]) == Exec(u, r1.0, r1.1, [fault]);
    CreationFault(u, r1.0, r1.1, [fault]);
  }

  lemma WritesLast(u: Upgrade, store: Store, t: Status)
    ensures Exec(u, store, Put(t, Done), []).0 == store.(status := t)
  {
    assert Exec(u, store, Put(t, Done), []) == Exec(u, store.(status := t), Done, []);
  }

  /** Without the answer to its first write, of the finalizer or of a stage's success, a reconcile goes no further. */
  lemma FailedFirstWriteStops(u: Upgrade, store: Store, o: Observation, fault: Fault)
    requires InOrder(store, o) && !fault.Fine?
    requires !store.finalizer
             || (o.jobRead && store.status.phase in {CRDs, ControllerManager, NetworkFabric}
                 && JobAt(store.jobs, LookupKey(u, Watched(store.status.phase).value)) == Some(Succeeded))
    ensures var s, after := store.status, Reconcile(u, store, o, [fault]).0;
            && after.jobs == store.jobs
            && after.status == (if store.finalizer && fault.Unacknowledged? then s.(lastSuccessfulPhase := s.phase) else s)
  {
    var begun, plan := WithEvent(store, BeginEvent(store, o)), Decide(u, store, o);
    assert plan.AddFinalizer? || (plan.Put? && plan.status == store.status.(lastSuccessfulPhase := store.status.phase));
    hide Decide, Dispatch;
    var r := Call(u, begun, plan, fault);
    assert r.1.Done?;
    assert Exec(u, begun, plan, [fault]).0 == r.0;
  }
}
