// What holds in every reachable world of the upgrade protocol.
//
// The invariant has three parts: the persisted status agrees with the history of the
// jobs (StatusOk), the reconcile in progress can only lead to such statuses (PlanOk),
// and jobs, history and cluster agree with each other (StoreOk).
module Invariant {
  import opened Api
  import Backup
  import opened Cluster
  import opened Names
  import opened Protocol
  import opened Runs
  import opened Wrappers

  // ---------------------------------------------------------------- facts

  /** What the history and the backup amount to. */
  datatype Facts = Facts(
    freeze: Track, crd: Track, manager: Track, fabric: Track, rollback: Track,
    saved: bool,     // the backup holds the original environment
    gated: bool,     // some validation passed all checks
    checked: bool)   // all nine milestones are behind

  /** base is the cluster before the upgrade; Original its version. */
  function Original(base: Cluster): (r: string) {
    var v := DetectIn(base.manager);
    if v.Some? then v.value else ""
  }

  ghost predicate Gated(u: Upgrade, base: Cluster, log: seq<Event>) {
    DetectIn(base.manager).Some? && exists i :: 0 <= i < |log| && PassesValidation(u, Original(base), log[i])
  }

  ghost predicate Saved(base: Cluster, backup: Option<Backup.Data>) {
    base.manager.Some? && backup == Some(Backup.BackupOf(base.manager.value))
  }

  ghost function FactsOf(u: Upgrade, base: Cluster, store: Store): (r: Facts) {
    Facts(Latest(store.log, Freeze), Latest(store.log, Crd), Latest(store.log, Manager),
          Latest(store.log, Fabric), Latest(store.log, Rollback),
          Saved(base, store.backup), Gated(u, base, store.log), Reached(u, store.log, 9))
  }

  function TrackOf(f: Facts, stage: Stage): (r: Track) {
    match stage
    case Freeze => f.freeze
    case Crd => f.crd
    case Manager => f.manager
    case Fabric => f.fabric
    case Rollback => f.rollback
  }

  function WithTrack(f: Facts, stage: Stage, t: Track): (r: Facts) {
    match stage
    case Freeze => f.(freeze := t)
    case Crd => f.(crd := t)
    case Manager => f.(manager := t)
    case Fabric => f.(fabric := t)
    case Rollback => f.(rollback := t)
  }

  /** The last stage whose latest job succeeded, as LastSuccessfulPhase names it. */
  function HighestSuccess(f: Facts): (r: Phase) {
    if f.fabric == Ended(true) then NetworkFabric
    else if f.manager == Ended(true) then ControllerManager
    else if f.crd == Ended(true) then CRDs
    else NoPhase
  }

  /** Time passing without a job being created. */
  ghost predicate Moves(f: Facts, g: Facts) {
    && (forall s :: TrackOf(g, s) == TrackOf(f, s) || (TrackOf(f, s) == Live && TrackOf(g, s).Ended?))
    && (f.saved ==> g.saved) && (f.gated ==> g.gated) && (f.checked ==> g.checked)
  }

  // ---------------------------------------------------------------- the status

  function Rank(phase: Phase): (r: nat) {
    match phase
    case NoPhase => 0
    case Pending => 0
    case Validating => 1
    case FreezingOperations => 2
    case CRDs => 3
    case ControllerManager => 4
    case NetworkFabric => 5
    case Verifying => 6
    case RollingBack => 7
    case _ => 8
  }

  predicate Terminal(phase: Phase) { Rank(phase) == 8 }

  /** The jobs that a phase leaves possible: all before it succeeded, the next one
      is created only after success, rollback only after failure. */
  predicate OnPath(phase: Phase, f: Facts) {
    var ok := Ended(true);
    match phase
    case FreezingOperations =>
      && f.freeze != Never && f.manager == Never && f.fabric == Never
      && (f.crd != Never ==> f.freeze == ok) && (f.rollback != Never ==> f.freeze == Ended(false))
    case CRDs =>
      && f.freeze == ok && f.crd != Never && f.fabric == Never
      && (f.manager != Never ==> f.crd == ok) && (f.rollback != Never ==> f.crd == Ended(false))
    case ControllerManager =>
      && f.freeze == ok && f.crd == ok && f.manager != Never
      && (f.fabric != Never ==> f.manager == ok) && (f.rollback != Never ==> f.manager == Ended(false))
    case NetworkFabric =>
      && f.freeze == ok && f.crd == ok && f.manager == ok && f.fabric != Never
      && (f.rollback != Never ==> f.fabric == Ended(false))
    case Verifying => f.freeze == ok && f.crd == ok && f.manager == ok && f.fabric == ok
    case Completed => f.freeze == ok && f.crd == ok && f.manager == ok && f.fabric == ok
    case RollingBack => f.rollback != Never
    case Failed => true
    case OtherPhase(_) => false
    case _ => f.crd == Never && f.manager == Never && f.fabric == Never && f.rollback == Never
  }

  predicate LastSuccessOk(s: Status, f: Facts) {
    var last := s.lastSuccessfulPhase;
    match s.phase
    case CRDs => last == NoPhase || (last == CRDs && f.crd == Ended(true))
    case ControllerManager => last == CRDs || (last == ControllerManager && f.manager == Ended(true))
    case NetworkFabric => last == ControllerManager || (last == NetworkFabric && f.fabric == Ended(true))
    case Verifying => last == NetworkFabric
    case Completed => last == NetworkFabric
    case RollingBack => true
    case Failed => true
    case _ => last == NoPhase
  }

  predicate ConditionsOk(s: Status) {
    match s.phase
    case NoPhase => s.conditions == []
    case Pending => s.conditions == []
    case Validating => s.conditions in {[], [Compatible]}
    case RollingBack => s.conditions == [Compatible, RollbackRequired]
    case Completed => s.conditions == [Compatible, Healthy]
    case Failed => s.conditions in {[], [Compatible], [Compatible, RollbackRequired]}
    case _ => s.conditions == [Compatible]
  }

  /** The stage counter shown to the user. */
  predicate StagesOk(s: Status) {
    && (1 <= Rank(s.phase) ==> s.totalStages == 9)
    && match s.phase
       case Validating => s.currentStage == 0
       case FreezingOperations => s.currentStage == 0
       case CRDs => s.currentStage == 1
       case ControllerManager => s.currentStage == 2
       case NetworkFabric => s.currentStage == 3
       case Verifying => s.currentStage == 3
       case Completed => s.currentStage == 3
       case _ => 0 <= s.currentStage <= 3
  }

  /** What validation established. */
  ghost predicate Prepared(u: Upgrade, base: Cluster, s: Status, f: Facts) {
    && DetectIn(base.manager) == Some(s.previousVersion)
    && s.backupReady && s.backupName == BackupName(u)
    && f.saved && f.gated && OwnsItsJobs(u)
  }

  ghost predicate StatusOk(u: Upgrade, base: Cluster, s: Status, f: Facts) {
    && OnPath(s.phase, f) && LastSuccessOk(s, f) && ConditionsOk(s) && StagesOk(s)
    && (2 <= Rank(s.phase) && !s.phase.Failed? ==> Prepared(u, base, s, f))
    && (s.phase.Completed? ==> f.checked && "v" <= u.target)
    && (s.rolledBack ==> s.phase.Failed? && f.rollback == Ended(true) && Prepared(u, base, s, f)
                         && s.conditions == [Compatible, RollbackRequired])
  }

  function LastRank(s: Status): (r: nat) { if s.lastSuccessfulPhase.NoPhase? then 0 else Rank(s.lastSuccessfulPhase) }

  /** From one persisted status to the next. */
  predicate Advances(s: Status, t: Status) {
    && !Terminal(s.phase) && Rank(s.phase) <= Rank(t.phase) && LastRank(s) <= LastRank(t)
    && (s.phase.RollingBack? ==> t.phase.Failed?)
  }

  // ---------------------------------------------------------------- the plan

  ghost predicate JobOk(u: Upgrade, base: Cluster, f: Facts, stage: Stage, job: JobSpec) {
    && job.stage == stage && job.namespace == JobNamespace(u) && OwnsItsJobs(u)
    && match stage
       case Freeze => true
       case Rollback =>
         DetectIn(base.manager) == Some(job.version) && job.lastPhase == HighestSuccess(f) && job.backup == BackupName(u)
       case Crd => job.version == u.target
       case _ => job.version == u.target && job.backup == BackupName(u)
  }

  ghost predicate CreateOk(u: Upgrade, base: Cluster, stage: Stage, job: JobSpec, phase: Phase, f: Facts) {
    && JobOk(u, base, f, stage, job) && OnPath(phase, f) && f.gated
    && match stage
       case Freeze => phase.Validating?
       case Crd => phase.FreezingOperations? && f.freeze == Ended(true)
       case Manager => phase.CRDs? && f.crd == Ended(true)
       case Fabric => phase.ControllerManager? && f.manager == Ended(true)
       case Rollback =>
         || (phase.FreezingOperations? && f.freeze == Ended(false))
         || (phase.CRDs? && f.crd == Ended(false))
         || (phase.ControllerManager? && f.manager == Ended(false))
         || (phase.NetworkFabric? && f.fabric == Ended(false))
         || phase.Verifying?
  }

  /** Only the status write that ends a rollback's start is left. */
  predicate Settles(plan: Plan) {
    plan.Put? && plan.status.phase in {RollingBack, Failed}
  }

  /** Every call of the plan keeps StatusOk, whatever happens before it is made. */
  ghost predicate PlanOk(u: Upgrade, base: Cluster, plan: Plan, s: Status, f: Facts) {
    match plan
    case Done => true
    case AddFinalizer(next) => PlanOk(u, base, next, s, f)
    case Put(t, next) => Advances(s, t) && StatusOk(u, base, t, f) && PlanOk(u, base, next, t, f)
    case Create(stage, job, created, refused) =>
      && CreateOk(u, base, stage, job, s.phase, f)
      && (stage.Rollback? ==> Settles(created) && Settles(refused))
      && PlanOk(u, base, refused, s, f)
      && forall t :: t != Never ==>
           && PlanOk(u, base, created, s, WithTrack(f, stage, t))
           && PlanOk(u, base, refused, s, WithTrack(f, stage, t))
    case Save(data, saved, failed) =>
      && base.manager.Some? && data == Backup.BackupOf(base.manager.value)
      && PlanOk(u, base, failed, s, f)
      && PlanOk(u, base, saved, s, f.(saved := true))
      && PlanOk(u, base, failed, s, f.(saved := true))
    case Delete(_, next) => PlanOk(u, base, next, s, f)
    case RemoveFinalizer => true
  }

  // ---------------------------------------------------------------- the store

  predicate Agrees(state: JobState, t: Track) {
    match state
    case Running => t == Live
    case Succeeded => t == Ended(true)
    case FailedJob => t == Ended(false)
  }

  ghost predicate JobsOk(u: Upgrade, store: Store, f: Facts) {
    && (forall s :: JobOf(u, store, s).Some? ==>
          && Agrees(JobOf(u, store, s).value.state, TrackOf(f, s))
          && Created(s, JobOf(u, store, s).value.spec) in store.log)
    && (forall k :: k in store.jobs && k.upgrade == u.name ==> k.namespace == JobNamespace(u))
  }

  /** At most one job is unfinished, and none beside a rollback. */
  ghost predicate OneLive(f: Facts) {
    && (forall s, t :: TrackOf(f, s) == Live && TrackOf(f, t) == Live ==> s == t)
    && (f.rollback != Never ==> forall s :: s != Rollback ==> TrackOf(f, s) != Live)
  }

  ghost predicate LogOk(u: Upgrade, base: Cluster, log: seq<Event>, f: Facts) {
    && (forall i :: 0 <= i < |log| && log[i].Created? ==>
          TrackOf(f, log[i].stage) != Never && JobOk(u, base, f, log[i].stage, log[i].job))
    && (f.freeze != Never ==> f.gated)
  }

  function Number(stage: Stage): (r: nat) {
    match stage case Freeze => 1 case Crd => 2 case Manager => 3 case Fabric => 4 case Rollback => 5
  }

  ghost predicate MilestonesOk(u: Upgrade, log: seq<Event>, f: Facts) {
    forall s :: s != Rollback ==>
      && (TrackOf(f, s) != Never ==> Reached(u, log, 2 * Number(s) - 1))
      && (TrackOf(f, s) == Ended(true) ==> Reached(u, log, 2 * Number(s)))
  }

  ghost predicate ClusterOk(u: Upgrade, base: Cluster, c: Cluster, f: Facts) {
    && WithinReach(base, c, u.target, Original(base))
    && (f.crd == Never ==> c.crds == base.crds)
    && (f.crd == Ended(true) ==> CrdsAt(c, u.target))
    && (f.manager == Never && f.rollback == Never ==> c.manager == base.manager)
    && (f.fabric == Never ==> SameFabric(base, c))
    && (f.manager == Ended(true) && f.rollback == Never ==> ManagerAt(c, u.target))
    && (f.fabric == Ended(true) && f.rollback == Never ==> FabricAt(c, u.target))
    && (f.fabric == Ended(true) ==>
          TemplateAt(c.clientTemplate, u.target) && TemplateAt(c.serverTemplate, u.target))
    && (f.rollback == Ended(true) ==>
          && ManagerAt(c, Original(base))
          && (f.fabric == Ended(true) ==> FabricAt(c, Original(base))))
  }

  ghost predicate StoreOk(u: Upgrade, base: Cluster, store: Store, f: Facts) {
    && JobsOk(u, store, f) && OneLive(f) && LogOk(u, base, store.log, f)
    && MilestonesOk(u, store.log, f) && ClusterOk(u, base, store.cluster, f)
  }

  /** A rollback job goes unnoticed only if a status write was lost after its creation. */
  ghost predicate NoticeOk(w: World, f: Facts) {
    f.rollback != Never && !(w.store.status.phase in {RollingBack, Failed})
    ==> RollbackWriteLost(w.store.log) || Settles(w.pending)
  }

  ghost predicate Inv(u: Upgrade, base: Cluster, w: World) {
    var f := FactsOf(u, base, w.store);
    && StatusOk(u, base, w.store.status, f)
    && PlanOk(u, base, w.pending, w.store.status, f)
    && StoreOk(u, base, w.store, f)
    && NoticeOk(w, f)
  }

  // ------------------------------------------------------ stability over time

  lemma StatusStays(u: Upgrade, base: Cluster, s: Status, f: Facts, g: Facts)
    requires StatusOk(u, base, s, f) && Moves(f, g)
    ensures StatusOk(u, base, s, g)
  {
    assert forall t :: TrackOf(g, t) == TrackOf(f, t) || (TrackOf(f, t) == Live && TrackOf(g, t).Ended?);
    assert TrackOf(f, Freeze) == f.freeze && TrackOf(f, Crd) == f.crd && TrackOf(f, Manager) == f.manager;
    assert TrackOf(f, Fabric) == f.fabric && TrackOf(f, Rollback) == f.rollback;
  }

  lemma CreateStays(u: Upgrade, base: Cluster, stage: Stage, job: JobSpec, phase: Phase, f: Facts, g: Facts)
    requires CreateOk(u, base, stage, job, phase, f) && Moves(f, g)
    ensures CreateOk(u, base, stage, job, phase, g)
  {
    assert TrackOf(f, Freeze) == f.freeze && TrackOf(f, Crd) == f.crd && TrackOf(f, Manager) == f.manager;
    assert TrackOf(f, Fabric) == f.fabric && TrackOf(f, Rollback) == f.rollback;
  }

  lemma MovesWithTrack(f: Facts, g: Facts, stage: Stage, t: Track)
    requires Moves(f, g)
    ensures Moves(WithTrack(f, stage, t), WithTrack(g, stage, t))
  {
    forall s ensures
      || TrackOf(WithTrack(g, stage, t), s) == TrackOf(WithTrack(f, stage, t), s)
      || (TrackOf(WithTrack(f, stage, t), s) == Live && TrackOf(WithTrack(g, stage, t), s).Ended?)
    {
      assert TrackOf(g, s) == TrackOf(f, s) || (TrackOf(f, s) == Live && TrackOf(g, s).Ended?);
    }
  }

  lemma {:induction false} PlanStays(u: Upgrade, base: Cluster, plan: Plan, s: Status, f: Facts, g: Facts)
    requires PlanOk(u, base, plan, s, f) && Moves(f, g)
    ensures PlanOk(u, base, plan, s, g)
    decreases plan
  {
    hide StatusOk, CreateOk, Moves;
    match plan
    case Done =>
    case AddFinalizer(next) => PlanStays(u, base, next, s, f, g);
    case Put(t, next) =>
      StatusStays(u, base, t, f, g);
      PlanStays(u, base, next, t, f, g);
    case Create(stage, job, created, refused) =>
      CreateStays(u, base, stage, job, s.phase, f, g);
      PlanStays(u, base, refused, s, f, g);
      forall t | t != Never
        ensures PlanOk(u, base, created, s, WithTrack(g, stage, t)) && PlanOk(u, base, refused, s, WithTrack(g, stage, t))
      {
        MovesWithTrack(f, g, stage, t);
        PlanStays(u, base, created, s, WithTrack(f, stage, t), WithTrack(g, stage, t));
        PlanStays(u, base, refused, s, WithTrack(f, stage, t), WithTrack(g, stage, t));
      }
    case Save(data, saved, failed) =>
      var f1, g1 := f.(saved := true), g.(saved := true);
      assert Moves(f1, g1) by { SavingMoves(f, g); }
      PlanStays(u, base, failed, s, f, g);
      PlanStays(u, base, saved, s, f1, g1);
      PlanStays(u, base, failed, s, f1, g1);
    case Delete(_, next) => PlanStays(u, base, next, s, f, g);
    case RemoveFinalizer =>
  }

  lemma SavingMoves(f: Facts, g: Facts)
    requires Moves(f, g)
    ensures Moves(f.(saved := true), g.(saved := true))
  {
    var f1, g1 := f.(saved := true), g.(saved := true);
    forall s ensures TrackOf(g1, s) == TrackOf(f1, s) || (TrackOf(f1, s) == Live && TrackOf(g1, s).Ended?) {
      assert TrackOf(f1, s) == TrackOf(f, s) && TrackOf(g1, s) == TrackOf(g, s);
    }
  }
}
