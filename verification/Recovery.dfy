// Reconciles that are cut off, that wait for a missing job, and that delete: what the
// next reconcile makes of them.
module Recovery {
  import opened Api
  import opened Cluster
  import Decisions
  import opened Invariant
  import opened Names
  import opened Protocol
  import opened Runs
  import opened Safety
  import Versions
  import opened Wrappers

  // ------------------------------------------------ undisturbed reconciles are runs

  lemma Extend(u: Upgrade, w: World, steps: seq<Step>, step: Step)
    requires Run(u, w, steps).Some? && Enabled(u, Run(u, w, steps).value, step)
    ensures Run(u, w, steps + [step]) == Some(Apply(u, Run(u, w, steps).value, step))
  {
    assert (steps + [step])[..|steps|] == steps;
  }

  lemma {:induction false} ExecIsARun(u: Upgrade, w: World, steps: seq<Step>, faults: seq<Fault>) returns (longer: seq<Step>)
    requires Run(u, w, steps).Some?
    ensures var before := Run(u, w, steps).value;
            Run(u, w, longer) == Some(World(Exec(u, before.store, before.pending, faults).0, Done))
    decreases Length(Run(u, w, steps).value.pending)
  {
    var now := Run(u, w, steps).value;
    if now.pending.Done? {
      longer := steps;
    } else {
      Extend(u, w, steps, Proceed(Head(faults)));
      longer := ExecIsARun(u, w, steps + [Proceed(Head(faults))], Tail(faults));
    }
  }

  /** A whole reconcile, with any faults, is one of the ways a run may go on: what is
      proved of runs holds of Controller.Reconciler.ReconcileUpgrade. */
  lemma ReconcileIsARun(u: Upgrade, w: World, steps: seq<Step>, o: Observation, faults: seq<Fault>) returns (longer: seq<Step>)
    requires Run(u, w, steps).Some? && Run(u, w, steps).value.pending.Done?
    ensures Run(u, w, longer) == Some(World(Reconcile(u, Run(u, w, steps).value.store, o, faults).0, Done))
  {
    Extend(u, w, steps, Begin(o));
    longer := ExecIsARun(u, w, steps + [Begin(o)], faults);
  }

  // ---------------------------------------------------------------- cut-offs

  /** The first k calls of a plan, all going well, and what is left of it. */
  function Partial(u: Upgrade, store: Store, plan: Plan, k: nat): (r: (Store, Plan))
    decreases k
  {
    if k == 0 || plan.Done? then (store, plan)
    else
      var r := Call(u, store, plan, Fine);
      Partial(u, r.0, r.1, k - 1)
  }

  /** The status that a plan ends with when all goes well. */
  function LastStatus(plan: Plan, s: Status): (r: Status) {
    match plan
    case AddFinalizer(next) => LastStatus(next, s)
    case Put(t, next) => LastStatus(next, t)
    case Create(_, _, created, _) => LastStatus(created, s)
    case Save(_, saved, _) => LastStatus(saved, s)
    case _ => s
  }

  /** The jobs that a plan creates when all goes well. */
  function Creations(plan: Plan): (jobs: map<Stage, JobSpec>) {
    match plan
    case AddFinalizer(next) => Creations(next)
    case Put(_, next) => Creations(next)
    case Create(stage, job, created, _) => Creations(created)[stage := job]
    case Save(_, saved, _) => Creations(saved)
    case _ => map[]
  }

  /** No deletion in it: every plan but that of handleDeletion. */
  predicate Constructive(plan: Plan) {
    match plan
    case Done => true
    case AddFinalizer(next) => Constructive(next)
    case Put(_, next) => Constructive(next)
    case Create(_, _, created, refused) => Constructive(created) && Constructive(refused)
    case Save(_, saved, failed) => Constructive(saved) && Constructive(failed)
    case _ => false
  }

  lemma {:induction false} FineStatus(u: Upgrade, store: Store, plan: Plan)
    requires Constructive(plan)
    ensures Exec(u, store, plan, []).0.status == LastStatus(plan, store.status)
    decreases Length(plan)
  {
    if !plan.Done? {
      var r := Call(u, store, plan, Fine);
      FineStatus(u, r.0, r.1);
    }
  }

  lemma {:induction false} FineKeepsJobs(u: Upgrade, store: Store, plan: Plan)
    requires Constructive(plan)
    ensures var after := Exec(u, store, plan, []).0;
            && (forall k :: k in store.jobs ==> k in after.jobs && after.jobs[k] == store.jobs[k])
            && (forall k :: k in after.jobs && k !in store.jobs ==> k.stage in Creations(plan) && k == OwnKey(u, k.stage))
    decreases Length(plan)
  {
    hide OwnKey;
    if !plan.Done? {
      var r := Call(u, store, plan, Fine);
      FineKeepsJobs(u, r.0, r.1);
      if plan.Create? { assert OwnKey(u, plan.stage).stage == plan.stage by { KeyOfStage(u, plan.stage); } }
    }
  }

  lemma KeyOfStage(u: Upgrade, stage: Stage)
    ensures OwnKey(u, stage).stage == stage
  {
  }

  lemma {:induction false} FineCreatesJobs(u: Upgrade, store: Store, plan: Plan)
    requires Constructive(plan)
    ensures var after := Exec(u, store, plan, []).0;
            forall s :: s in Creations(plan) ==>
              && OwnKey(u, s) in after.jobs
              && (OwnKey(u, s) !in store.jobs ==> after.jobs[OwnKey(u, s)] == Job(Creations(plan)[s], Running))
    decreases Length(plan)
  {
    hide OwnKey;
    if !plan.Done? {
      var r := Call(u, store, plan, Fine);
      FineCreatesJobs(u, r.0, r.1);
      FineKeepsJobs(u, r.0, r.1);
      forall s ensures OwnKey(u, s).stage == s { KeyOfStage(u, s); }
    }
  }

  /** Deciding again on the status t leads where deciding on s does. */
  ghost predicate Resumes(u: Upgrade, s: Status, t: Status, view: View, o: Observation) {
    && t.phase == s.phase
    && LastStatus(Dispatch(u, t, view, o), t) == LastStatus(Dispatch(u, s, view, o), s)
    && Creations(Dispatch(u, t, view, o)) == Creations(Dispatch(u, s, view, o))
  }

  /** Every status that the plan passes through with calls still to make. */
  ghost predicate ResumesThroughout(u: Upgrade, s: Status, t: Status, plan: Plan, view: View, o: Observation)
    decreases plan
  {
    match plan
    case Done => true
    case AddFinalizer(next) => Resumes(u, s, t, view, o) && ResumesThroughout(u, s, t, next, view, o)
    case Put(p, next) => Resumes(u, s, t, view, o) && ResumesThroughout(u, s, p, next, view, o)
    case Create(_, _, created, _) => Resumes(u, s, t, view, o) && ResumesThroughout(u, s, t, created, view, o)
    case Save(_, saved, _) => Resumes(u, s, t, view, o) && ResumesThroughout(u, s, t, saved, view, o)
    case _ => false
  }

  lemma WriteResumes(u: Upgrade, s: Status, t: Status, p: Status, view: View, o: Observation)
    requires Resumes(u, s, t, view, o)
    ensures Constructive(Put(p, Done)) && ResumesThroughout(u, s, t, Put(p, Done), view, o)
  {
    hide Resumes;
    assert Constructive(Done) && ResumesThroughout(u, s, p, Done, view, o);
  }

  lemma StartResumes(u: Upgrade, s: Status, t: Status, stage: Stage, view: View, o: Observation)
    requires Resumes(u, s, t, view, o)
    ensures Constructive(Start(u, t, stage)) && ResumesThroughout(u, s, t, Start(u, t, stage), view, o)
  {
    var t1 := t.(currentStage := StageNumber(stage));
    WriteResumes(u, s, t, t1.(phase := PhaseOf(stage)), view, o);
    WriteResumes(u, s, t, t1.(phase := Failed), view, o);
    hide Resumes;
  }

  lemma StartRollbackResumes(u: Upgrade, s: Status, view: View, o: Observation)
    ensures Constructive(StartRollback(u, s)) && ResumesThroughout(u, s, s, StartRollback(u, s), view, o)
  {
    assert Resumes(u, s, s, view, o);
    WriteResumes(u, s, s, s.(phase := RollingBack, conditions := s.conditions + [RollbackRequired]), view, o);
    WriteResumes(u, s, s, s.(phase := Failed), view, o);
    hide Resumes;
  }

  /** Where starting a stage leads. */
  lemma StartLeadsTo(u: Upgrade, s: Status, stage: Stage)
    ensures LastStatus(Start(u, s, stage), s)
         == if OwnsItsJobs(u) then s.(currentStage := StageNumber(stage), phase := PhaseOf(stage)) else s
    ensures Creations(Start(u, s, stage)) == if OwnsItsJobs(u) then map[stage := BuildJob(u, s, stage)] else map[]
  {
    var p := s.(currentStage := StageNumber(stage), phase := PhaseOf(stage));
    assert LastStatus(Put(p, Done), s) == p && Creations(Put(p, Done)) == map[] by {
      assert LastStatus(Done, p) == p && Creations(Done) == map[];
    }
  }

  lemma RecordingResumes(u: Upgrade, s: Status, stage: Stage, view: View, o: Observation)
    requires stage in {Crd, Manager, Fabric} && s.phase == PhaseOf(stage) && view.job == Some(Succeeded)
    ensures Resumes(u, s, s.(phase := PhaseOf(stage), lastSuccessfulPhase := PhaseOf(stage)), view, o)
  {
    var t := s.(phase := PhaseOf(stage), lastSuccessfulPhase := PhaseOf(stage));
    StartLeadsTo(u, t, Manager);
    StartLeadsTo(u, t, Fabric);
    assert Dispatch(u, s, view, o) == StageSucceeded(u, s, stage);
    assert Dispatch(u, t, view, o) == StageSucceeded(u, t, stage);
    assert StageSucceeded(u, s, stage) == StageSucceeded(u, t, stage);
    assert StageSucceeded(u, s, stage).Put?;
  }

  lemma StageSuccessResumes(u: Upgrade, s: Status, stage: Stage, view: View, o: Observation)
    requires s.phase == PhaseOf(stage) && view.job == Some(Succeeded)
    ensures var plan := StageSucceeded(u, s, stage); Constructive(plan) && ResumesThroughout(u, s, s, plan, view, o)
  {
    assert Resumes(u, s, s, view, o);
    var recorded := s.(phase := PhaseOf(stage), lastSuccessfulPhase := PhaseOf(stage));
    match stage
    case Freeze => StartResumes(u, s, s, Crd, view, o);
    case Rollback => WriteResumes(u, s, s, s.(phase := Failed, rolledBack := true), view, o);
    case _ =>
      RecordingResumes(u, s, stage, view, o);
      StartResumes(u, s, recorded, Manager, view, o);
      StartResumes(u, s, recorded, Fabric, view, o);
      WriteResumes(u, s, recorded, recorded.(phase := Verifying), view, o);
  }

  lemma ValidateResumes(u: Upgrade, s: Status, view: View, o: Observation)
    requires s.phase.Validating?
    ensures var plan := Validate(u, s, view.manager, o); Constructive(plan) && ResumesThroughout(u, s, s, plan, view, o)
  {
    hide Versions.Gate;
    assert Resumes(u, s, s, view, o);
    WriteResumes(u, s, s, s.(phase := Failed), view, o);
    var plan := Validate(u, s, view.manager, o);
    if plan.Save? {
      var s1 := s.(backupName := BackupName(u), backupReady := true);
      WriteResumes(u, s, s, s1.(phase := Failed), view, o);
      if o.ready {
        var t := s1.(phase := Validating, previousVersion := DetectIn(view.manager).value, conditions := [Compatible]);
        assert plan.saved == Put(t, Start(u, t, Freeze));
        var again := Validate(u, t, view.manager, o);
        assert again.Save? && again.saved == plan.saved;
        assert Dispatch(u, s, view, o) == plan && Dispatch(u, t, view, o) == again;
        StartLeadsTo(u, t, Freeze);
        assert LastStatus(plan.saved, s) == LastStatus(plan.saved, t) == LastStatus(Start(u, t, Freeze), t);
        assert Creations(plan.saved) == Creations(Start(u, t, Freeze));
        assert Resumes(u, s, t, view, o);
        StartResumes(u, s, t, Freeze, view, o);
        hide Resumes;
      }
    }
  }

  lemma DispatchResumes(u: Upgrade, s: Status, view: View, o: Observation)
    ensures var plan := Dispatch(u, s, view, o); Constructive(plan) && ResumesThroughout(u, s, s, plan, view, o)
  {
    assert Resumes(u, s, s, view, o);
    var stage := Watched(s.phase);
    if stage.Some? {
      if view.job == Some(Succeeded) { StageSuccessResumes(u, s, stage.value, view, o); }
      StartRollbackResumes(u, s, view, o);
    } else if s.phase.Validating? {
      ValidateResumes(u, s, view, o);
    } else {
      StartRollbackResumes(u, s, view, o);
    }
  }

  lemma {:induction false} PartialResumes(u: Upgrade, s: Status, store: Store, plan: Plan, view: View, o: Observation, k: nat)
    requires ResumesThroughout(u, s, store.status, plan, view, o) && !Partial(u, store, plan, k).1.Done?
    ensures Resumes(u, s, Partial(u, store, plan, k).0.status, view, o)
    decreases k
  {
    hide Resumes;
    if k > 0 {
      var r := Call(u, store, plan, Fine);
      PartialResumes(u, s, r.0, r.1, view, o, k - 1);
    }
  }

  ghost predicate SameFlags(a: Store, b: Store) {
    a.finalizer == b.finalizer && a.deleting == b.deleting && a.gone == b.gone
  }

  /** Time passes between two reconciles: jobs may work, end and expire, the cluster and the
      history may change. */
  ghost predicate TimePasses(a: Store, b: Store) {
    && b.status == a.status && SameFlags(a, b)
    && forall key :: key in b.jobs ==> key in a.jobs && b.jobs[key].spec == a.jobs[key].spec
  }

  /** Two views that look the same to the phase: the same outcome of the watched job, and only for
      validation the same deployment and for verification the same verdict on it. */
  ghost predicate SameOutcome(u: Upgrade, phase: Phase, a: View, b: View, o: Observation) {
    && a.job == b.job
    && (phase.Validating? ==> a.manager == b.manager)
    && (phase.Verifying? ==> (Decisions.SeesTarget(u, a.manager, o) <==> Decisions.SeesTarget(u, b.manager, o)))
  }

  /** A phase decides by the outcome it watches and by nothing else of the cluster. */
  lemma OutcomeDecides(u: Upgrade, s: Status, a: View, b: View, o: Observation)
    requires SameOutcome(u, s.phase, a, b, o)
    ensures Dispatch(u, s, a, o) == Dispatch(u, s, b, o)
  {
    hide StartRollback, Validate, Monitor, DetectIn;
  }

  /** A reconcile that is cut off after any number of its calls, and repeated later with the same
      outcome before its eyes, whatever happened to the cluster and to the jobs meanwhile,
      ends in the status that it would have written undisturbed, with the same successor job
      and no other. */
  lemma CutOffReconcileIsMadeUpFor(u: Upgrade, store: Store, o: Observation, k: nat, later: Store)
    requires !store.deleting
    requires var partial := Partial(u, WithEvent(store, BeginEvent(store, o)), Decide(u, store, o), k);
             !partial.1.Done? && TimePasses(partial.0, later)
    requires SameOutcome(u, store.status.phase, ViewOf(u, store, o), ViewOf(u, later, o), o)
    ensures var once, again := Reconcile(u, store, o, []).0, Reconcile(u, later, o, []).0;
            && again.status == once.status
            && (forall key :: key in once.jobs && key !in store.jobs ==>
                  key in again.jobs && again.jobs[key].spec == once.jobs[key].spec)
            && (forall key :: key in again.jobs ==> key in once.jobs)
  {
    var s, view := store.status, ViewOf(u, store, o);
    var begun, plan := WithEvent(store, BeginEvent(store, o)), Decide(u, store, o);
    var rest := Dispatch(u, s, view, o);
    DispatchResumes(u, s, view, o);
    assert ResumesThroughout(u, s, s, plan, view, o) by { assert Resumes(u, s, s, view, o); }
    PartialResumes(u, s, begun, plan, view, o, k);
    PartialKeepsFlags(u, begun, plan, k);
    PartialJobs(u, begun, plan, k);
    var t := later.status;
    DispatchResumes(u, t, view, o);
    OutcomeDecides(u, t, view, ViewOf(u, later, o), o);
    var replan := Decide(u, later, o);
    FineStatus(u, begun, plan);
    FineKeepsJobs(u, begun, plan);
    FineCreatesJobs(u, begun, plan);
    FineStatus(u, WithEvent(later, BeginEvent(later, o)), replan);
    FineKeepsJobs(u, WithEvent(later, BeginEvent(later, o)), replan);
    FineCreatesJobs(u, WithEvent(later, BeginEvent(later, o)), replan);
    assert LastStatus(plan, s) == LastStatus(rest, s) && Creations(plan) == Creations(rest);
    assert Resumes(u, s, t, view, o);
    hide Dispatch, Partial, SameOutcome;
    var redone := Dispatch(u, t, view, o);
    assert LastStatus(replan, t) == LastStatus(redone, t) && Creations(replan) == Creations(redone);
    assert Creations(replan) == Creations(plan);
  }

  /** What the first calls of a plan create is what the whole of it would have created. */
  lemma {:induction false} PartialJobs(u: Upgrade, store: Store, plan: Plan, k: nat)
    requires Constructive(plan)
    ensures var partial, once := Partial(u, store, plan, k).0, Exec(u, store, plan, []).0;
            forall key :: key in partial.jobs ==> key in once.jobs && once.jobs[key] == partial.jobs[key]
    decreases k
  {
    if k == 0 || plan.Done? {
      FineKeepsJobs(u, store, plan);
    } else {
      var r := Call(u, store, plan, Fine);
      assert Exec(u, store, plan, []) == Exec(u, r.0, r.1, []);
      assert Partial(u, store, plan, k) == Partial(u, r.0, r.1, k - 1);
      PartialJobs(u, r.0, r.1, k - 1);
    }
  }

  lemma {:induction false} PartialKeepsFlags(u: Upgrade, store: Store, plan: Plan, k: nat)
    requires Constructive(plan)
    ensures var after := Partial(u, store, plan, k).0;
            after.deleting == store.deleting && after.gone == store.gone
    decreases k
  {
    if k > 0 && !plan.Done? {
      var r := Call(u, store, plan, Fine);
      PartialKeepsFlags(u, r.0, r.1, k - 1);
    }
  }

  // ---------------------------------------------------------------- waiting

  /** Nothing in it writes the status, creates a job or saves a backup. */
  predicate Inert(plan: Plan) {
    match plan
    case Done => true
    case AddFinalizer(next) => Inert(next)
    case Delete(_, next) => Inert(next)
    case RemoveFinalizer => true
    case _ => false
  }

  /** The job that the phase waits for is not to be found. */
  predicate Stuck(u: Upgrade, w: World) {
    && Watched(w.store.status.phase).Some?
    && LookupKey(u, Watched(w.store.status.phase).value) !in w.store.jobs
    && Inert(w.pending)
  }

  lemma {:induction false} DeletionIsInert(stages: seq<Stage>)
    ensures Inert(HandleDeletion(stages))
  {
    if |stages| > 0 { DeletionIsInert(stages[1..]); }
  }

  lemma StuckStep(u: Upgrade, w: World, step: Step)
    requires Stuck(u, w) && Enabled(u, w, step)
    ensures Stuck(u, Apply(u, w, step)) && Apply(u, w, step).store.status == w.store.status
  {
    hide Work, Goal, BeginEvent;
    if step.Begin? {
      DeletionIsInert(STAGES);
      var view := ViewOf(u, w.store, step.o);
      assert view.job.None?;
      assert Dispatch(u, w.store.status, view, step.o) == Done;
    }
  }

  /** An upgrade whose phase waits for a job that is not there waits for good: no reconcile, however
      it observes and whichever calls fail, and nothing that happens beside it changes the
      status any more. */
  lemma {:induction false} AbsentJobMeansWaiting(u: Upgrade, w: World, steps: seq<Step>)
    requires Stuck(u, w) && Run(u, w, steps).Some?
    ensures Stuck(u, Run(u, w, steps).value) && Run(u, w, steps).value.store.status == w.store.status
  {
    if |steps| > 0 {
      AbsentJobMeansWaiting(u, w, steps[..|steps| - 1]);
      StuckStep(u, Run(u, w, steps[..|steps| - 1]).value, steps[|steps| - 1]);
    }
  }

  /** So does one whose job has ended and expires before any reconcile has seen it. */
  lemma UnseenExpiryStrandsTheUpgrade(u: Upgrade, w: World, stage: Stage, steps: seq<Step>)
    requires Watched(w.store.status.phase) == Some(stage) && Inert(w.pending) && Enabled(u, w, JobExpires(stage))
    requires u.namespace != "" && Run(u, Apply(u, w, JobExpires(stage)), steps).Some?
    ensures Run(u, Apply(u, w, JobExpires(stage)), steps).value.store.status == w.store.status
  {
    AbsentJobMeansWaiting(u, Apply(u, w, JobExpires(stage)), steps);
  }

  /** Without spec.namespace, jobs are created in "liqo" and looked up in "". */
  ghost predicate NotPastFreezing(phase: Phase) {
    phase in {NoPhase, Pending, Validating, FreezingOperations, Failed}
  }

  ghost predicate PlanNotPastFreezing(plan: Plan) {
    match plan
    case Done => true
    case AddFinalizer(next) => PlanNotPastFreezing(next)
    case Put(s, next) => NotPastFreezing(s.phase) && PlanNotPastFreezing(next)
    case Create(_, _, a, b) => PlanNotPastFreezing(a) && PlanNotPastFreezing(b)
    case Save(_, a, b) => PlanNotPastFreezing(a) && PlanNotPastFreezing(b)
    case Delete(_, next) => PlanNotPastFreezing(next)
    case RemoveFinalizer => true
  }

  lemma {:induction false} DeletionIsNotPastFreezing(stages: seq<Stage>)
    ensures PlanNotPastFreezing(HandleDeletion(stages))
  {
    if |stages| > 0 { DeletionIsNotPastFreezing(stages[1..]); }
  }

  lemma OwnJobsAreInLiqo(u: Upgrade, base: Cluster, w: World)
    requires Inv(u, base, w) && u.namespace == ""
    ensures forall k :: k in w.store.jobs && k.upgrade == u.name ==> k.namespace == "liqo"
  {
    hide StatusOk, PlanOk, OneLive, LogOk, MilestonesOk, ClusterOk, FactsOf, NoticeOk;
  }

  /** No run without spec.namespace gets past FreezingOperations: its jobs are in "liqo", where it
      does not look. */
  lemma {:induction false} EmptyNamespaceStaysInFreezing(u: Upgrade, w: World, steps: seq<Step>)
    requires Reachable(u, w, steps) && u.namespace == ""
    ensures NotPastFreezing(End(u, w, steps).status.phase)
    ensures forall k :: k in End(u, w, steps).jobs && k.upgrade == u.name ==> k.namespace == "liqo"
    ensures PlanNotPastFreezing(Run(u, w, steps).value.pending)
  {
    Decisions.RunKeepsInv(u, w, steps);
    OwnJobsAreInLiqo(u, w.store.cluster, Run(u, w, steps).value);
    hide Inv, PlanNotPastFreezing;
    if |steps| > 0 {
      var n := |steps| - 1;
      EmptyNamespaceStaysInFreezing(u, w, steps[..n]);
      Decisions.RunKeepsInv(u, w, steps[..n]);
      StepStaysInFreezing(u, w.store.cluster, Run(u, w, steps[..n]).value, steps[n]);
    }
  }

  lemma WriteIsNotPastFreezing(t: Status)
    requires NotPastFreezing(t.phase)
    ensures PlanNotPastFreezing(Put(t, Done))
  {
    assert PlanNotPastFreezing(Done);
  }

  lemma ValidationIsNotPastFreezing(u: Upgrade, s: Status, manager: Option<Workload>, o: Observation)
    ensures PlanNotPastFreezing(Validate(u, s, manager, o))
  {
    forall t: Status ensures PlanNotPastFreezing(Fail(t)) && PlanNotPastFreezing(Start(u, t, Freeze)) {
      var t1 := t.(currentStage := 0);
      WriteIsNotPastFreezing(t.(phase := Failed));
      WriteIsNotPastFreezing(t1.(phase := Failed));
      WriteIsNotPastFreezing(t1.(phase := FreezingOperations));
    }
    if o.versionRead && DetectIn(manager).Some? {
      assert PlanNotPastFreezing(ValidationFinished(u, s, DetectIn(manager).value, o.ready));
    }
  }

  lemma StepStaysInFreezing(u: Upgrade, base: Cluster, w: World, step: Step)
    requires Inv(u, base, w) && Enabled(u, w, step) && u.namespace == ""
    requires NotPastFreezing(w.store.status.phase) && PlanNotPastFreezing(w.pending)
    ensures var next := Apply(u, w, step);
            NotPastFreezing(next.store.status.phase) && PlanNotPastFreezing(next.pending)
  {
    hide StatusOk, PlanOk, OneLive, LogOk, MilestonesOk, ClusterOk, FactsOf, Validate;
    if step.Begin? {
      DeletionIsNotPastFreezing(STAGES);
      var s, view := w.store.status, ViewOf(u, w.store, step.o);
      assert s.phase.FreezingOperations? ==> view.job.None?;
      ValidationIsNotPastFreezing(u, s, view.manager, step.o);
      assert PlanNotPastFreezing(Dispatch(u, s, view, step.o));
    }
  }

  // ---------------------------------------------------------------- deletion

  function FaultOf(faults: seq<Fault>, i: nat): (f: Fault) { if i < |faults| then faults[i] else Fine }

  lemma FaultOfTail(faults: seq<Fault>, i: nat)
    ensures FaultOf(faults, 0) == Head(faults) && FaultOf(Tail(faults), i) == FaultOf(faults, i + 1)
  {
  }

  /** A job was to be deleted, and the call was not refused. */
  ghost predicate Deleted(u: Upgrade, key: JobKey, stages: seq<Stage>, faults: seq<Fault>) {
    exists i: nat :: i < |stages| && key == LookupKey(u, stages[i]) && !FaultOf(faults, i).Refused?
  }

  lemma DeletedFirst(u: Upgrade, key: JobKey, stages: seq<Stage>, faults: seq<Fault>)
    requires |stages| > 0
    ensures Deleted(u, key, stages, faults)
       <==> (key == LookupKey(u, stages[0]) && !Head(faults).Refused?) || Deleted(u, key, stages[1..], Tail(faults))
  {
    hide LookupKey;
    forall i: nat { FaultOfTail(faults, i); }
    if Deleted(u, key, stages, faults) {
      var i: nat :| i < |stages| && key == LookupKey(u, stages[i]) && !FaultOf(faults, i).Refused?;
      if i > 0 { assert stages[1..][i - 1] == stages[i] && FaultOf(Tail(faults), i - 1) == FaultOf(faults, i); }
    }
    if Deleted(u, key, stages[1..], Tail(faults)) {
      var i: nat :| i < |stages[1..]| && key == LookupKey(u, stages[1..][i]) && !FaultOf(Tail(faults), i).Refused?;
      assert stages[i + 1] == stages[1..][i];
    }
  }

  lemma {:induction false} DeletionWithFaults(u: Upgrade, store: Store, stages: seq<Stage>, faults: seq<Fault>)
    ensures var after := Exec(u, store, HandleDeletion(stages), faults).0;
            && (forall k :: k in after.jobs <==> k in store.jobs && !Deleted(u, k, stages, faults))
            && (forall k :: k in after.jobs ==> after.jobs[k] == store.jobs[k])
            && after.gone == (store.gone || !FaultOf(faults, |stages|).Refused?)
            && after.finalizer == (store.finalizer && FaultOf(faults, |stages|).Refused?)
            && after.status == store.status && after.cluster == store.cluster
    decreases |stages|
  {
    var plan := HandleDeletion(stages);
    var r := Call(u, store, plan, Head(faults));
    assert Exec(u, store, plan, faults) == Exec(u, r.0, r.1, Tail(faults));
    hide LookupKey;
    if |stages| > 0 {
      DeletionWithFaults(u, r.0, stages[1..], Tail(faults));
      FaultOfTail(faults, |stages| - 1);
      hide Deleted, Exec;
      forall k { DeletedFirst(u, k, stages, faults); }
    }
  }

  /** A delete that is refused is passed over: all other jobs of the upgrade go, and so does the
      finalizer, unless its own removal is refused. */
  lemma DeletionPassesOverFaults(u: Upgrade, store: Store, o: Observation, faults: seq<Fault>)
    requires store.deleting && store.finalizer && !store.gone && o.upgradeRead
    ensures var after := Reconcile(u, store, o, faults).0;
            && (forall i: nat :: i < 5 ==>
                  (LookupKey(u, STAGES[i]) in after.jobs
                   <==> LookupKey(u, STAGES[i]) in store.jobs && FaultOf(faults, i).Refused?))
            && (forall k :: k in store.jobs && (k.upgrade != u.name || k.namespace != u.namespace) ==> k in after.jobs)
            && (forall k :: k in after.jobs ==> k in store.jobs && after.jobs[k] == store.jobs[k])
            && (after.gone <==> !FaultOf(faults, 5).Refused?) && (after.finalizer <==> FaultOf(faults, 5).Refused?)
            && after.status == store.status
  {
    DeletionWithFaults(u, WithEvent(store, BeginEvent(store, o)), STAGES, faults);
    forall i: nat | i < 5
      ensures Deleted(u, LookupKey(u, STAGES[i]), STAGES, faults) <==> !FaultOf(faults, i).Refused?
    {
      assert forall j: nat :: j < 5 && LookupKey(u, STAGES[j]) == LookupKey(u, STAGES[i]) ==> j == i;
    }
    hide HandleDeletion;
  }

  function Remaining(u: Upgrade, jobs: map<JobKey, Job>, stages: seq<Stage>): (r: map<JobKey, Job>) {
    if |stages| == 0 then jobs else Remaining(u, jobs - {LookupKey(u, stages[0])}, stages[1..])
  }

  lemma {:induction false} RemainingJobs(u: Upgrade, jobs: map<JobKey, Job>, stages: seq<Stage>)
    ensures forall k :: k in Remaining(u, jobs, stages) <==> k in jobs && !(k == LookupKey(u, k.stage) && k.stage in stages)
    ensures forall k :: k in Remaining(u, jobs, stages) ==> Remaining(u, jobs, stages)[k] == jobs[k]
  {
    if |stages| > 0 { RemainingJobs(u, jobs - {LookupKey(u, stages[0])}, stages[1..]); }
  }

  lemma {:induction false} DeletionRemoves(u: Upgrade, store: Store, stages: seq<Stage>)
    ensures Exec(u, store, HandleDeletion(stages), []).0
         == store.(jobs := Remaining(u, store.jobs, stages), finalizer := false, gone := true)
    decreases |stages|
  {
    if |stages| > 0 {
      DeletionRemoves(u, Call(u, store, HandleDeletion(stages), Fine).0, stages[1..]);
    }
  }

  /** An undisturbed deletion removes all jobs of the upgrade exactly if they were created
      where it looks for them, and no job of any other upgrade. */
  lemma DeletionCleansUp(u: Upgrade, w: World, steps: seq<Step>, o: Observation)
    requires Reachable(u, w, steps)
    requires var store := End(u, w, steps); store.deleting && store.finalizer && !store.gone && o.upgradeRead
    ensures var store := End(u, w, steps);
            var after := Reconcile(u, store, o, []).0;
            && after.gone
            && ((forall k :: k in after.jobs ==> k.upgrade != u.name)
                <==> u.namespace != "" || (forall k :: k in store.jobs ==> k.upgrade != u.name))
            && (forall k :: k in store.jobs && k.upgrade != u.name ==> k in after.jobs && after.jobs[k] == store.jobs[k])
            && (forall k :: k in after.jobs ==> k in store.jobs)
  {
    Decisions.RunKeepsInv(u, w, steps);
    hide StatusOk, PlanOk, OneLive, LogOk, MilestonesOk, ClusterOk, FactsOf, Run;
    var store := End(u, w, steps);
    DeletionRemoves(u, WithEvent(store, BeginEvent(store, o)), STAGES);
    RemainingJobs(u, store.jobs, STAGES);
    forall s: Stage ensures s in STAGES {
      assert s == STAGES[match s case Freeze => 0 case Crd => 1 case Manager => 2 case Fabric => 3 case Rollback => 4];
    }
  }
}
