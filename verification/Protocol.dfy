// One reconcile of a LiqoUpgrade: what it reads, and the API calls it decides on.
// A reconcile is not atomic: its calls take effect one by one, each may be refused
// or applied without the answer arriving, and the process may stop in between.
module Protocol {
  import opened Api
  import Backup
  import opened Cluster
  import Images
  import opened Names
  import opened Versions
  import opened Wrappers

  // ---------------------------------------------------------------- the store

  datatype JobState = Running | Succeeded | FailedJob

  datatype Job = Job(spec: JobSpec, state: JobState)

  /** What the reads of a reconcile return, beyond the store itself. */
  datatype Observation = Observation(
    upgradeRead: bool,                        // the LiqoUpgrade could be read
    jobRead: bool,                            // the watched job could be read
    identityRead: bool,                       // verifyClusterIdentity's read of the deployment
    versionRead: bool,                        // detectDeployedVersion's read of it
    remotes: Option<seq<RemoteVersion>>,      // the ForeignClusters, if listed
    matrix: Option<Matrix>,                   // the compatibility matrix, if loaded
    backupRead: bool,                         // both reads of backupEnvironmentConfig
    ready: bool)                              // deployment read, and at least one ready replica

  datatype Event =
    | Looked(phase: Phase, version: Option<string>, o: Observation)   // a reconcile began
    | Created(stage: Stage, job: JobSpec)
    | Finished(stage: Stage, ok: bool)
    | Lost(phase: Phase)                                              // a status write that did not happen

  /** The API server's state, and the history of the upgrade. */
  datatype Store = Store(
    status: Status, finalizer: bool, deleting: bool, gone: bool,
    jobs: map<JobKey, Job>, backup: Option<Backup.Data>, cluster: Cluster, log: seq<Event>)

  // ---------------------------------------------------------------- API calls

  datatype Fault =
    | Fine
    | Refused          // no effect, error
    | Unacknowledged   // effect, but error

  /** The rest of a reconcile.  `created` also continues after "already exists". */
  datatype Plan =
    | Done
    | AddFinalizer(next: Plan)
    | Put(status: Status, next: Plan)
    | Create(stage: Stage, job: JobSpec, created: Plan, refused: Plan)
    | Save(data: Backup.Data, saved: Plan, failed: Plan)
    | Delete(stage: Stage, next: Plan)
    | RemoveFinalizer

  /** Jobs are created in JobNamespace... */
  function OwnKey(u: Upgrade, stage: Stage): (r: JobKey) { JobKey(JobNamespace(u), stage, u.name) }

  /** ...but looked up in spec.namespace as it stands. */
  function LookupKey(u: Upgrade, stage: Stage): (r: JobKey) { JobKey(u.namespace, stage, u.name) }

  function WithEvent(store: Store, e: Event): (r: Store) { store.(log := store.log + [e]) }

  function WithJob(u: Upgrade, store: Store, stage: Stage, job: JobSpec): (r: Store) {
    if OwnKey(u, stage) in store.jobs then store
    else WithEvent(store.(jobs := store.jobs[OwnKey(u, stage) := Job(job, Running)]), Created(stage, job))
  }

  /** The calls that a plan makes at most. */
  function Length(plan: Plan): (r: nat) {
    match plan
    case Done => 0
    case AddFinalizer(next) => 1 + Length(next)
    case Put(_, next) => 1 + Length(next)
    case Create(_, _, a, b) => 1 + if Length(a) > Length(b) then Length(a) else Length(b)
    case Save(_, a, b) => 1 + if Length(a) > Length(b) then Length(a) else Length(b)
    case Delete(_, next) => 1 + Length(next)
    case RemoveFinalizer => 1
  }

  /** One API call. */
  function Call(u: Upgrade, store: Store, plan: Plan, fault: Fault): (r: (Store, Plan))
    ensures !plan.Done? ==> Length(r.1) < Length(plan)
  {
    match plan
    case Done => (store, Done)
    case AddFinalizer(next) =>
      (if fault.Refused? then store else store.(finalizer := true), if fault.Fine? then next else Done)
    case Put(status, next) =>
      (if fault.Refused? then WithEvent(store, Lost(status.phase)) else store.(status := status),
       if fault.Fine? then next else Done)
    case Create(stage, job, created, refused) =>
      (if fault.Refused? then store else WithJob(u, store, stage, job), if fault.Fine? then created else refused)
    case Save(data, saved, failed) =>
      (if fault.Refused? then store else store.(backup := Some(data)), if fault.Fine? then saved else failed)
    case Delete(stage, next) =>
      (if fault.Refused? then store else store.(jobs := store.jobs - {LookupKey(u, stage)}), next)
    case RemoveFinalizer =>
      (if fault.Refused? then store else store.(finalizer := false, gone := true), Done)
  }

  function Head(faults: seq<Fault>): (r: Fault) { if |faults| > 0 then faults[0] else Fine }
  function Tail(faults: seq<Fault>): (r: seq<Fault>) { if |faults| > 0 then faults[1..] else [] }

  /** A whole reconcile, undisturbed: one fault per call, Fine once they run out. */
  function Exec(u: Upgrade, store: Store, plan: Plan, faults: seq<Fault>): (r: (Store, seq<Fault>))
    decreases Length(plan)
  {
    if plan.Done? then (store, faults)
    else
      var r := Call(u, store, plan, Head(faults));
      Exec(u, r.0, r.1, Tail(faults))
  }

  // ---------------------------------------------------------------- decisions

  function BuildJob(u: Upgrade, s: Status, stage: Stage): (r: JobSpec) {
    var backup := if s.backupName == "" then BackupName(u) else s.backupName;
    match stage
    case Freeze => JobSpec(Freeze, "", NoPhase, JobNamespace(u), "")
    case Crd => JobSpec(Crd, u.target, NoPhase, JobNamespace(u), "")
    case Manager => JobSpec(Manager, u.target, NoPhase, JobNamespace(u), backup)
    case Fabric => JobSpec(Fabric, u.target, NoPhase, JobNamespace(u), backup)
    case Rollback => JobSpec(Rollback, s.previousVersion, s.lastSuccessfulPhase, JobNamespace(u), backup)
  }

  function StageNumber(stage: Stage): (r: int) {
    match stage case Freeze => 0 case Crd => 1 case Manager => 2 case Fabric => 3 case Rollback => -1
  }

  /** The phase in which a job is watched. */
  function PhaseOf(stage: Stage): (r: Phase) {
    match stage
    case Freeze => FreezingOperations
    case Crd => CRDs
    case Manager => ControllerManager
    case Fabric => NetworkFabric
    case Rollback => RollingBack
  }

  function Fail(s: Status): (r: Plan) { Put(s.(phase := Failed), Done) }

  function Start(u: Upgrade, s: Status, stage: Stage): (r: Plan) {
    var s1 := s.(currentStage := StageNumber(stage));
    if !OwnsItsJobs(u) then Done
    else Create(stage, BuildJob(u, s1, stage), Put(s1.(phase := PhaseOf(stage)), Done), Fail(s1))
  }

  function StartRollback(u: Upgrade, s: Status): (r: Plan) {
    if u.autoRollback == Some(false) || !OwnsItsJobs(u) then Fail(s)
    else
      Create(Rollback, BuildJob(u, s, Rollback),
        Put(s.(phase := RollingBack, conditions := s.conditions + [RollbackRequired]), Done),
        Fail(s))
  }

  /** What follows a stage whose job succeeded. */
  function StageSucceeded(u: Upgrade, s: Status, stage: Stage): (r: Plan) {
    var recorded := s.(phase := PhaseOf(stage), lastSuccessfulPhase := PhaseOf(stage));
    match stage
    case Freeze => Start(u, s, Crd)
    case Crd => Put(recorded, Start(u, recorded, Manager))
    case Manager => Put(recorded, Start(u, recorded, Fabric))
    case Fabric => Put(recorded, Put(recorded.(phase := Verifying), Done))
    case Rollback => Put(s.(phase := Failed, rolledBack := true), Done)
  }

  function StageFailed(u: Upgrade, s: Status, stage: Stage): (r: Plan) {
    if stage.Rollback? then Put(s.(phase := Failed, rolledBack := false), Done) else StartRollback(u, s)
  }

  function Monitor(u: Upgrade, s: Status, stage: Stage, job: Option<JobState>): (r: Plan) {
    match job
    case None => Done
    case Some(Running) => Done
    case Some(Succeeded) => StageSucceeded(u, s, stage)
    case Some(FailedJob) => StageFailed(u, s, stage)
  }

  /** detectDeployedVersion on a deployment that could be read. */
  function DetectIn(manager: Option<Workload>): (r: Option<string>) {
    if manager.None? || |manager.value| == 0 then None else Images.Detect(manager.value[0].image)
  }

  function BeginValidation(s: Status): (r: Plan) {
    Put(s.(phase := Validating, totalStages := 9, currentStage := 0), Done)
  }

  function ValidationFinished(u: Upgrade, s: Status, local: string, ready: bool): (r: Plan) {
    var s1 := s.(backupName := BackupName(u), backupReady := true);
    if !ready then Fail(s1)
    else
      var s2 := s1.(phase := Validating, previousVersion := local, conditions := [Compatible]);
      Put(s2, Start(u, s2, Freeze))
  }

  ghost function Validate(u: Upgrade, s: Status, manager: Option<Workload>, o: Observation): (r: Plan) {
    var version := if o.versionRead then DetectIn(manager) else None;
    if manager.None? || !o.identityRead || version.None? || o.remotes.None? || o.matrix.None? then Fail(s)
    else if !Gate(o.matrix.value, [version.value] + Defaulted(version.value, o.remotes.value), u.target) then Fail(s)
    else if !o.backupRead || !OwnsItsJobs(u) then Fail(s)
    else Save(Backup.BackupOf(manager.value), ValidationFinished(u, s, version.value, o.ready), Fail(s))
  }

  function Verify(u: Upgrade, s: Status, manager: Option<Workload>, o: Observation): (r: Plan) {
    var version := if o.versionRead then DetectIn(manager) else None;
    if !o.ready || version != Some(u.target) then StartRollback(u, s)
    else Put(s.(phase := Completed, conditions := s.conditions + [Healthy]), Done)
  }

  /** The job that Reconcile polls in a phase. */
  function Watched(phase: Phase): (r: Option<Stage>) {
    match phase
    case FreezingOperations => Some(Freeze)
    case CRDs => Some(Crd)
    case ControllerManager => Some(Manager)
    case NetworkFabric => Some(Fabric)
    case RollingBack => Some(Rollback)
    case _ => None
  }

  function JobAt(jobs: map<JobKey, Job>, key: JobKey): (r: Option<JobState>) {
    if key in jobs then Some(jobs[key].state) else None
  }

  /** All that a reconcile reads of the store before its first write. */
  datatype View = View(job: Option<JobState>, manager: Option<Workload>)

  function ViewOf(u: Upgrade, store: Store, o: Observation): (r: View) {
    var stage := Watched(store.status.phase);
    View(if stage.Some? && o.jobRead then JobAt(store.jobs, LookupKey(u, stage.value)) else None, store.cluster.manager)
  }

  /** The switch over the persisted phase. */
  ghost function Dispatch(u: Upgrade, s: Status, view: View, o: Observation): (r: Plan) {
    match s.phase
    case NoPhase => BeginValidation(s)
    case Pending => BeginValidation(s)
    case Validating => Validate(u, s, view.manager, o)
    case Verifying => Verify(u, s, view.manager, o)
    case FreezingOperations => Monitor(u, s, Freeze, view.job)
    case CRDs => Monitor(u, s, Crd, view.job)
    case ControllerManager => Monitor(u, s, Manager, view.job)
    case NetworkFabric => Monitor(u, s, Fabric, view.job)
    case RollingBack => Monitor(u, s, Rollback, view.job)
    case _ => Done
  }

  function HandleDeletion(stages: seq<Stage>): (r: Plan) {
    if |stages| == 0 then RemoveFinalizer else Delete(stages[0], HandleDeletion(stages[1..]))
  }

  /** Reconcile, as the calls it goes on to make. */
  ghost function Decide(u: Upgrade, store: Store, o: Observation): (r: Plan) {
    if store.gone || !o.upgradeRead then Done
    else if store.deleting then (if store.finalizer then HandleDeletion(STAGES) else Done)
    else
      var rest := Dispatch(u, store.status, ViewOf(u, store, o), o);
      if store.finalizer then rest else AddFinalizer(rest)
  }

  function BeginEvent(store: Store, o: Observation): (r: Event) {
    Looked(store.status.phase, if o.versionRead then DetectIn(store.cluster.manager) else None, o)
  }

  ghost function Reconcile(u: Upgrade, store: Store, o: Observation, faults: seq<Fault>): (r: (Store, seq<Fault>)) {
    Exec(u, WithEvent(store, BeginEvent(store, o)), Decide(u, store, o), faults)
  }
}
