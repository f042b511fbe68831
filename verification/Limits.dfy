// What runs there are: upgrades can complete; and three things that one might expect of the
// protocol do not hold of it.  Each is shown by a way to go on from every world of the kind
// described.
module Limits {
  import opened Api
  import opened Cluster
  import opened Decisions
  import Images
  import opened Invariant
  import opened Names
  import opened Protocol
  import opened Recovery
  import opened Runs
  import opened Safety
  import Strings
  import Versions
  import opened Wrappers

  /** The steps of an undisturbed stretch of a reconcile. */
  lemma Advance(u: Upgrade, w: World, steps: seq<Step>, step: Step) returns (longer: seq<Step>, next: World)
    requires Reachable(u, w, steps) && Enabled(u, Run(u, w, steps).value, step)
    ensures longer == steps + [step] && Reachable(u, w, longer)
    ensures next == Apply(u, Run(u, w, steps).value, step) == Run(u, w, longer).value
  {
    Extend(u, w, steps, step);
    longer := steps + [step];
    next := Apply(u, Run(u, w, steps).value, step);
  }

  const GOOD := Observation(true, true, true, true, None, None, true, true)

  /** A reconcile begins. */
  lemma Look(u: Upgrade, w: World, steps: seq<Step>, o: Observation) returns (longer: seq<Step>, next: World)
    requires Reachable(u, w, steps) && o.upgradeRead
    requires var now := Run(u, w, steps).value;
             now.pending.Done? && now.store.finalizer && !now.store.deleting && !now.store.gone
    ensures Reachable(u, w, longer) && next == Run(u, w, longer).value
    ensures var store := Run(u, w, steps).value.store;
            && next.store == WithEvent(store, BeginEvent(store, o))
            && next.pending == Dispatch(u, store.status, ViewOf(u, store, o), o)
  {
    hide Run, Dispatch, BeginEvent;
    longer, next := Advance(u, w, steps, Begin(o));
  }

  /** A status is written. */
  lemma Write(u: Upgrade, w: World, steps: seq<Step>) returns (longer: seq<Step>, next: World)
    requires Reachable(u, w, steps) && Run(u, w, steps).value.pending.Put?
    ensures Reachable(u, w, longer) && next == Run(u, w, longer).value
    ensures var now := Run(u, w, steps).value;
            next == World(now.store.(status := now.pending.status), now.pending.next)
  {
    hide Run;
    longer, next := Advance(u, w, steps, Proceed(Fine));
  }

  /** A job is created. */
  lemma Make(u: Upgrade, w: World, steps: seq<Step>) returns (longer: seq<Step>, next: World)
    requires Reachable(u, w, steps)
    requires var now := Run(u, w, steps).value;
             now.pending.Create? && OwnKey(u, now.pending.stage) !in now.store.jobs
    ensures Reachable(u, w, longer) && next == Run(u, w, longer).value
    ensures var now := Run(u, w, steps).value;
            var jobs := now.store.jobs[OwnKey(u, now.pending.stage) := Job(now.pending.job, Running)];
            next == World(WithEvent(now.store.(jobs := jobs), Created(now.pending.stage, now.pending.job)), now.pending.created)
  {
    hide Run;
    longer, next := Advance(u, w, steps, Proceed(Fine));
  }

  /** A reconcile is cut off. */
  lemma Stop(u: Upgrade, w: World, steps: seq<Step>) returns (longer: seq<Step>, next: World)
    requires Reachable(u, w, steps) && !Run(u, w, steps).value.pending.Done?
    ensures Reachable(u, w, longer) && next == Run(u, w, longer).value
    ensures var now := Run(u, w, steps).value;
            next == World(if now.pending.Put? then WithEvent(now.store, Lost(now.pending.status.phase)) else now.store, Done)
  {
    hide Run;
    longer, next := Advance(u, w, steps, CutOff);
  }

  /** A running job ends with the cluster in the state c. */
  lemma EndJob(u: Upgrade, w: World, steps: seq<Step>, stage: Stage, c: Cluster, ok: bool) returns (longer: seq<Step>, next: World)
    requires Reachable(u, w, steps)
    requires var store := Run(u, w, steps).value.store; var job := JobOf(u, store, stage);
             && job.Some? && job.value.state.Running?
             && Work(job.value.spec, store.cluster, c) && (ok ==> Goal(job.value.spec, c))
    ensures Reachable(u, w, longer) && next == Run(u, w, longer).value
    ensures var now := Run(u, w, steps).value;
            var job := now.store.jobs[OwnKey(u, stage)].(state := if ok then Succeeded else FailedJob);
            next == now.(store := WithEvent(now.store.(jobs := now.store.jobs[OwnKey(u, stage) := job], cluster := c),
                                            Finished(stage, ok)))
  {
    hide Run, Work, Goal;
    var s1, w1 := Advance(u, w, steps, JobWorks(stage, c));
    longer, next := Advance(u, w, s1, JobEnds(stage, ok));
  }

  // ------------------------------------------------------- upgrades can succeed

  /** No reconcile in progress, and nothing in the way of one. */
  ghost predicate Idle(u: Upgrade, w: World) {
    && w.pending.Done? && w.store.finalizer && !w.store.deleting && !w.store.gone
    && u.namespace != "" && OwnsItsJobs(u)
  }

  /** The job of a stage runs, and no later one was created. */
  ghost predicate Underway(u: Upgrade, w: World, stage: Stage) {
    && Idle(u, w) && w.store.status.phase == PhaseOf(stage)
    && JobOf(u, w.store, stage) == Some(Job(BuildJob(u, w.store.status, stage), Running))
    && (forall s: Stage :: Number(s) > Number(stage) ==> OwnKey(u, s) !in w.store.jobs)
  }

  ghost predicate CanSetManager(u: Upgrade, c: Cluster) {
    && ':' !in u.target && "v" <= u.target
    && c.manager.Some? && |c.manager.value| > 0 && c.manager.value[0].name == "controller-manager"
  }

  /** A cluster whose components the scripts know how to set. */
  ghost predicate CanBeUpgraded(u: Upgrade, c: Cluster) {
    && CanSetManager(u, c)
    && (c.ipam.Some? ==> |c.ipam.value| > 0)
    && (c.proxy.Some? ==> |c.proxy.value| > 0)
    && (c.fabric.Some? ==> |c.fabric.value| > 0)
    && (c.clientTemplate.Some? ==> |c.clientTemplate.value| >= 3)
    && (c.serverTemplate.Some? ==> |c.serverTemplate.value| >= 3)
  }

  ghost function UpgradedFabric(u: Upgrade, c: Cluster): (r: Cluster) {
    c.(ipam := ComponentSet(c.ipam, "ipam", u.target), proxy := ComponentSet(c.proxy, "proxy", u.target),
       fabric := ComponentSet(c.fabric, "fabric", u.target), clientTemplate := TemplatePatched(c.clientTemplate, u.target),
       serverTemplate := TemplatePatched(c.serverTemplate, u.target))
  }

  /** Some CRD file applied at the target. */
  function WithCrds(u: Upgrade, c: Cluster): (d: Cluster) { c.(crds := c.crds["liqo.yaml" := u.target]) }

  lemma ManagerJobCanSucceed(u: Upgrade, c: Cluster, job: JobSpec)
    requires CanSetManager(u, c) && job.stage.Manager? && job.version == u.target
    ensures var d := c.(manager := ManagerSet(c.manager, u.target));
            Work(job, c, d) && Goal(job, d) && CanSetManager(u, d) && DetectIn(d.manager) == Some(u.target)
  {
    var repo := REGISTRY + "liqo-controller-manager";
    assert ManagerImage(u.target) == repo + ":" + u.target;
    Images.CutUndoesPrint(repo, u.target);
    Images.DetectUndoesPrint(repo, u.target);
  }

  lemma FabricJobCanSucceed(u: Upgrade, c: Cluster, job: JobSpec)
    requires CanBeUpgraded(u, c) && job.stage.Fabric? && job.version == u.target
    ensures Work(job, c, UpgradedFabric(u, c)) && Goal(job, UpgradedFabric(u, c))
  {
    Strings.SuffixIsContained(REGISTRY + "gateway" + ":", u.target);
  }

  /** What can be set stays so in every reachable world. */
  lemma CanSetManagerStays(u: Upgrade, w: World, steps: seq<Step>)
    requires Reachable(u, w, steps) && CanSetManager(u, w.store.cluster)
    ensures CanSetManager(u, End(u, w, steps).cluster)
  {
    RunKeepsInv(u, w, steps);
    ReachKeepsWorkloads(w.store.cluster, End(u, w, steps).cluster, u.target, Original(w.store.cluster));
  }

  /** The next reconcile after the success of a stage moves on. */
  lemma MoveOn(u: Upgrade, w: World, steps: seq<Step>, stage: Stage) returns (longer: seq<Step>)
    requires Reachable(u, w, steps) && !stage.Rollback?
    requires var now := Run(u, w, steps).value;
             && Idle(u, now) && now.store.status.phase == PhaseOf(stage)
             && JobAt(now.store.jobs, OwnKey(u, stage)) == Some(Succeeded)
             && (forall s: Stage :: Number(s) > Number(stage) ==> OwnKey(u, s) !in now.store.jobs)
    ensures Reachable(u, w, longer)
    ensures var next := Run(u, w, longer).value;
            && next.store.cluster == Run(u, w, steps).value.store.cluster
            && if stage.Fabric? then
                 Idle(u, next) && next.store.status.phase.Verifying? && OwnKey(u, Rollback) !in next.store.jobs
               else Underway(u, next, STAGES[Number(stage)])
  {
    hide Run, Initial;
    var s1, w1 := Look(u, w, steps, GOOD);
    var status := Run(u, w, steps).value.store.status;
    assert w1.pending == StageSucceeded(u, status, stage);
    longer := s1;
    if stage.Crd? || stage.Manager? {
      var s2, w2 := Write(u, w, s1);
      longer := s2;
    }
    if stage.Fabric? {
      var s2, w2 := Write(u, w, s1);
      var s3, w3 := Write(u, w, s2);
      longer := s3;
    } else {
      var next := STAGES[Number(stage)];
      assert Run(u, w, longer).value.pending == Start(u, Run(u, w, longer).value.store.status, next);
      longer := StartNext(u, w, longer, next);
    }
  }

  /** A stage is started. */
  lemma StartNext(u: Upgrade, w: World, steps: seq<Step>, stage: Stage) returns (longer: seq<Step>)
    requires Reachable(u, w, steps) && !stage.Rollback?
    requires var now := Run(u, w, steps).value;
             && Idle(u, now.(pending := Done)) && now.pending == Start(u, now.store.status, stage)
             && (forall s: Stage :: Number(s) >= Number(stage) ==> OwnKey(u, s) !in now.store.jobs)
    ensures Reachable(u, w, longer) && Underway(u, Run(u, w, longer).value, stage)
    ensures Run(u, w, longer).value.store.cluster == Run(u, w, steps).value.store.cluster
  {
    hide Run, Initial;
    var s1, w1 := Make(u, w, steps);
    var s2, w2 := Write(u, w, s1);
    longer := s2;
  }

  /** The job of a stage does its work and ends well, and the next reconcile moves on. */
  lemma FinishStage(u: Upgrade, w: World, steps: seq<Step>, stage: Stage, c: Cluster) returns (longer: seq<Step>)
    requires Reachable(u, w, steps) && !stage.Rollback? && Underway(u, Run(u, w, steps).value, stage)
    requires var store := Run(u, w, steps).value.store; var spec := store.jobs[OwnKey(u, stage)].spec;
             Work(spec, store.cluster, c) && Goal(spec, c)
    ensures Reachable(u, w, longer)
    ensures var next := Run(u, w, longer).value;
            && next.store.cluster == c
            && if stage.Fabric? then
                 Idle(u, next) && next.store.status.phase.Verifying? && OwnKey(u, Rollback) !in next.store.jobs
               else Underway(u, next, STAGES[Number(stage)])
  {
    hide Run, Initial, Work, Goal, BuildJob;
    var s1, w1 := EndJob(u, w, steps, stage, c, true);
    longer := MoveOn(u, w, s1, stage);
  }

  /** The first reconcile of a new upgrade. */
  lemma BeginUpgrade(u: Upgrade, w: World) returns (steps: seq<Step>)
    requires Initial(u, w) && !w.store.deleting && u.namespace != "" && OwnsItsJobs(u)
    ensures Reachable(u, w, steps)
    ensures var now := Run(u, w, steps).value;
            && Idle(u, now) && now.store.status.phase.Validating?
            && now.store.cluster == w.store.cluster && now.store.jobs == w.store.jobs
  {
    EmptyRun(u, w);
    hide Run;
    var s1, w1 := Advance(u, w, [], Begin(GOOD));
    steps := s1;
    if !w.store.finalizer {
      var s2, w2 := Advance(u, w, s1, Proceed(Fine));
      steps := s2;
    }
    var s3, w3 := Write(u, w, steps);
    steps := s3;
  }

  lemma StartUpgrade(u: Upgrade, w: World, o: Observation) returns (steps: seq<Step>)
    requires Initial(u, w) && !w.store.deleting && u.namespace != "" && OwnsItsJobs(u)
    requires SeesAllWell(u, w.store.cluster, o) && o.upgradeRead
    ensures Reachable(u, w, steps) && Underway(u, Run(u, w, steps).value, Freeze)
    ensures End(u, w, steps).cluster == w.store.cluster
  {
    var s1 := BeginUpgrade(u, w);
    hide Run, Versions.Gate;
    assert forall k :: k in w.store.jobs ==> k.upgrade != u.name;
    var s2, w2 := Look(u, w, s1, o);
    assert w2.pending.Save?;
    var s3, w3 := Advance(u, w, s2, Proceed(Fine));
    assert w3.pending == w2.pending.saved && w3.store == w2.store.(backup := w3.store.backup);
    hide Initial, SeesAllWell;
    var s4, w4 := Write(u, w, s3);
    steps := StartNext(u, w, s4, Freeze);
  }

  lemma EmptyRun(u: Upgrade, w: World)
    ensures Run(u, w, []) == Some(w)
  {
  }

  lemma FreezeJobCanSucceed(c: Cluster, job: JobSpec)
    requires job.stage.Freeze?
    ensures Work(job, c, c) && Goal(job, c)
  {
  }

  lemma CrdJobCanSucceed(u: Upgrade, c: Cluster, job: JobSpec)
    requires job.stage.Crd? && job.version == u.target
    ensures Work(job, c, WithCrds(u, c)) && Goal(job, WithCrds(u, c))
    ensures DetectIn(WithCrds(u, c).manager) == DetectIn(c.manager)
    ensures CanBeUpgraded(u, c) ==> CanBeUpgraded(u, WithCrds(u, c))
  {
    assert Applied(WithCrds(u, c).crds, ["liqo.yaml"], u.target);
  }

  /** Freeze and CRD job succeed. */
  lemma ReachManagerStage(u: Upgrade, w: World, o: Observation) returns (steps: seq<Step>)
    requires Initial(u, w) && !w.store.deleting && u.namespace != "" && OwnsItsJobs(u)
    requires SeesAllWell(u, w.store.cluster, o) && o.upgradeRead
    ensures Reachable(u, w, steps) && Underway(u, Run(u, w, steps).value, Manager)
    ensures End(u, w, steps).cluster == WithCrds(u, w.store.cluster)
  {
    hide Run, Work, Goal, Initial, Idle, SeesAllWell;
    steps := StartUpgrade(u, w, o);
    FreezeJobCanSucceed(w.store.cluster, JobOf(u, End(u, w, steps), Freeze).value.spec);
    steps := FinishStage(u, w, steps, Freeze, w.store.cluster);
    CrdJobCanSucceed(u, w.store.cluster, JobOf(u, End(u, w, steps), Crd).value.spec);
    steps := FinishStage(u, w, steps, Crd, WithCrds(u, w.store.cluster));
  }

  lemma ReachVerification(u: Upgrade, w: World, o: Observation) returns (steps: seq<Step>)
    requires Initial(u, w) && !w.store.deleting && u.namespace != "" && OwnsItsJobs(u)
    requires CanBeUpgraded(u, w.store.cluster) && SeesAllWell(u, w.store.cluster, o) && o.upgradeRead
    ensures Reachable(u, w, steps)
    ensures var now := Run(u, w, steps).value;
            && Idle(u, now) && now.store.status.phase.Verifying? && OwnKey(u, Rollback) !in now.store.jobs
            && DetectIn(now.store.cluster.manager) == Some(u.target)
  {
    hide Run, Work, Goal, Initial, Idle, SeesAllWell, SetImage;
    steps := ReachManagerStage(u, w, o);
    var base := WithCrds(u, w.store.cluster);
    var c := base.(manager := ManagerSet(base.manager, u.target));
    ManagerJobCanSucceed(u, base, JobOf(u, End(u, w, steps), Manager).value.spec);
    steps := FinishStage(u, w, steps, Manager, c);
    FabricJobCanSucceed(u, c, JobOf(u, End(u, w, steps), Fabric).value.spec);
    steps := FinishStage(u, w, steps, Fabric, UpgradedFabric(u, c));
  }

  /** Every upgrade that passes the gate, in a cluster whose components can be set, can complete. */
  lemma UpgradesCanComplete(u: Upgrade, w: World, o: Observation) returns (steps: seq<Step>)
    requires Initial(u, w) && !w.store.deleting && u.namespace != "" && OwnsItsJobs(u)
    requires CanBeUpgraded(u, w.store.cluster) && SeesAllWell(u, w.store.cluster, o) && o.upgradeRead
    ensures Reachable(u, w, steps) && End(u, w, steps).status.phase.Completed?
  {
    steps := ReachVerification(u, w, o);
    hide Run, Initial, CanBeUpgraded, SeesAllWell;
    var s1, w1 := Look(u, w, steps, GOOD);
    assert w1.pending.Put? && w1.pending.status.phase.Completed?;
    hide Dispatch, BeginEvent, Idle;
    var s2, w2 := Write(u, w, s1);
    steps := s2;
  }

  /** Verifying does not exclude rollback from completion: if verification fails once, and
      the status write after the creation of the rollback job is lost, the next
      reconcile may find the deployment ready and complete the upgrade while the
      rollback job runs. */
  lemma CompletedWhileRollingBack(u: Upgrade, w: World, steps: seq<Step>) returns (longer: seq<Step>)
    requires Reachable(u, w, steps) && u.autoRollback != Some(false)
    requires var now := Run(u, w, steps).value;
             && Idle(u, now) && now.store.status.phase.Verifying? && OwnKey(u, Rollback) !in now.store.jobs
             && DetectIn(now.store.cluster.manager) == Some(u.target)
    ensures Reachable(u, w, longer)
    ensures End(u, w, longer).status.phase.Completed?
    ensures Unfinished(u, End(u, w, longer), OwnKey(u, Rollback))
  {
    hide Run, Initial;
    var w0 := Run(u, w, steps).value;
    var s1, w1 := Look(u, w, steps, GOOD.(ready := false));
    var s2, w2 := Make(u, w, s1);
    var s3, w3 := Stop(u, w, s2);
    assert w3.store.status == w0.store.status && w3.store.cluster == w0.store.cluster;
    var s4, w4 := Look(u, w, s3, GOOD);
    var s5, w5 := Write(u, w, s4);
    longer := s5;
    assert Reachable(u, w, longer) && End(u, w, longer) == w5.store;
  }

  /** The job of the next stage may be created twice, when the status write after its first
      creation is lost and it has ended and expired before the reconcile is repeated.  Then
      the rollback job is not told of a success of the first one: here the manager job
      succeeded once, and LAST_PHASE still says UpgradingCRDs. */
  lemma RecreatedJobHidesASuccess(u: Upgrade, w: World, steps: seq<Step>) returns (longer: seq<Step>)
    requires Reachable(u, w, steps) && Underway(u, Run(u, w, steps).value, Crd)
    requires CanSetManager(u, w.store.cluster) && u.autoRollback != Some(false)
    ensures Reachable(u, w, longer)
    ensures var log := End(u, w, longer).log;
            && Finished(Manager, true) in log
            && exists job :: Created(Rollback, job) in log && job.lastPhase == CRDs
  {
    hide Run, Initial, Goal, Work, CanSetManager;
    var s1, c := LoseTheNextPhase(u, w, steps);
    // the manager job succeeds and expires
    CanSetManagerStays(u, w, s1);
    var w1 := Run(u, w, s1).value;
    ManagerJobCanSucceed(u, c, JobOf(u, w1.store, Manager).value.spec);
    var s2, w2 := EndJob(u, w, s1, Manager, c.(manager := ManagerSet(c.manager, u.target)), true);
    assert Finished(Manager, true) in w2.store.log by { assert w2.store.log[|w1.store.log|] == Finished(Manager, true); }
    var s3, w3 := Advance(u, w, s2, JobExpires(Manager));
    longer := FailSecondTime(u, w, s3);
  }

  /** The CRD job succeeds; the manager job is created, but the status write after it is lost. */
  lemma LoseTheNextPhase(u: Upgrade, w: World, steps: seq<Step>) returns (longer: seq<Step>, c: Cluster)
    requires Reachable(u, w, steps) && Underway(u, Run(u, w, steps).value, Crd)
    ensures Reachable(u, w, longer) && c == End(u, w, longer).cluster
    ensures var now := Run(u, w, longer).value;
            && Idle(u, now) && now.store.status.phase.CRDs? && now.store.status.lastSuccessfulPhase.CRDs?
            && JobAt(now.store.jobs, OwnKey(u, Crd)) == Some(Succeeded)
            && OwnKey(u, Rollback) !in now.store.jobs
            && JobOf(u, now.store, Manager).Some?
            && var job := JobOf(u, now.store, Manager).value;
               job.state.Running? && job.spec.stage.Manager? && job.spec.version == u.target
  {
    hide Run, Initial, Goal, Work;
    var w0 := Run(u, w, steps).value;
    c := WithCrds(u, w0.store.cluster);
    CrdJobCanSucceed(u, w0.store.cluster, w0.store.jobs[OwnKey(u, Crd)].spec);
    var s1, w1 := EndJob(u, w, steps, Crd, c, true);
    var s2, w2 := Look(u, w, s1, GOOD);
    assert w2.pending == StageSucceeded(u, w1.store.status, Crd);
    var s3, w3 := Write(u, w, s2);
    var s4, w4 := Make(u, w, s3);
    var s5, w5 := Stop(u, w, s4);
    longer := s5;
  }

  lemma FailSecondTime(u: Upgrade, w: World, steps: seq<Step>) returns (longer: seq<Step>)
    requires Reachable(u, w, steps)
    requires u.autoRollback != Some(false)
    requires var now := Run(u, w, steps).value;
             && Idle(u, now) && now.store.status.phase.CRDs? && now.store.status.lastSuccessfulPhase.CRDs?
             && JobAt(now.store.jobs, OwnKey(u, Crd)) == Some(Succeeded)
             && OwnKey(u, Manager) !in now.store.jobs && OwnKey(u, Rollback) !in now.store.jobs
             && Finished(Manager, true) in now.store.log
    ensures Reachable(u, w, longer)
    ensures var log := End(u, w, longer).log;
            && Finished(Manager, true) in log
            && exists job :: Created(Rollback, job) in log && job.lastPhase == CRDs
  {
    hide Run, Initial, Goal, Work;
    var s1, w1 := Look(u, w, steps, GOOD);
    var s2, w2 := Write(u, w, s1);
    var s3, w3 := Make(u, w, s2);
    var s4, w4 := Write(u, w, s3);
    NothingHappens(w4.store.jobs[OwnKey(u, Manager)].spec, w4.store.cluster);
    var s5, w5 := EndJob(u, w, s4, Manager, w4.store.cluster, false);
    var s6, w6 := Look(u, w, s5, GOOD);
    var s7, w7 := Make(u, w, s6);
    var job := BuildJob(u, w6.store.status, Rollback);
    assert w7.store.log[|w6.store.log|] == Created(Rollback, job);
    longer := s7;
    assert Reachable(u, w, longer) && End(u, w, longer) == w7.store;
  }

  // ------------------------------------------- a failed fabric job and rollback

  lemma RollbackJobCanSucceed(c: Cluster, job: JobSpec)
    requires job.stage.Rollback? && !FabricReached(job) && ':' !in job.version
    requires c.manager.Some? && |c.manager.value| > 0 && c.manager.value[0].name == "controller-manager"
    ensures var d := c.(manager := ManagerSet(c.manager, job.version)); Work(job, c, d) && Goal(job, d)
  {
    var repo := REGISTRY + "liqo-controller-manager";
    assert ManagerImage(job.version) == repo + ":" + job.version;
    Images.CutUndoesPrint(repo, job.version);
  }

  /** The network-fabric job fails after it has set ipam, and a rollback is begun. */
  lemma FailAfterSettingIpam(u: Upgrade, w: World, steps: seq<Step>) returns (longer: seq<Step>)
    requires Reachable(u, w, steps) && Underway(u, Run(u, w, steps).value, Fabric)
    requires u.autoRollback != Some(false)
    ensures Reachable(u, w, longer)
    ensures var before, now := Run(u, w, steps).value, Run(u, w, longer).value;
            && Idle(u, now) && now.store.status.phase.RollingBack?
            && now.store.cluster == before.store.cluster.(ipam := ComponentSet(before.store.cluster.ipam, "ipam", u.target))
            && Latest(now.store.log, Fabric) == Ended(false)
            && JobOf(u, now.store, Rollback) == Some(Job(BuildJob(u, before.store.status, Rollback), Running))
            && Created(Rollback, BuildJob(u, before.store.status, Rollback)) in now.store.log
  {
    hide Run, Initial, Latest;
    var w0 := Run(u, w, steps).value;
    var c := w0.store.cluster.(ipam := ComponentSet(w0.store.cluster.ipam, "ipam", u.target));
    var job := BuildJob(u, w0.store.status, Rollback);
    var s1, w1 := EndJob(u, w, steps, Fabric, c, false);
    Appending(w0.store.log, Finished(Fabric, false), Fabric);
    var s2, w2 := Look(u, w, s1, GOOD);
    Appending(w1.store.log, BeginEvent(w1.store, GOOD), Fabric);
    assert w2.pending == StartRollback(u, w0.store.status);
    var s3, w3 := Make(u, w, s2);
    Appending(w2.store.log, Created(Rollback, job), Fabric);
    assert w3.store.log[|w2.store.log|] == Created(Rollback, job);
    var s4, w4 := Write(u, w, s3);
    longer := s4;
  }

  /** A network-fabric failure is not rolled back: wherever its job runs, it may set ipam and fail,
      and the upgrade ends rolled back with ipam at the target. */
  lemma RolledBackWithNewIpam(u: Upgrade, w: World, steps: seq<Step>) returns (longer: seq<Step>)
    requires Reachable(u, w, steps) && Underway(u, Run(u, w, steps).value, Fabric)
    requires CanSetManager(u, w.store.cluster) && u.autoRollback != Some(false)
    requires End(u, w, steps).cluster.ipam.Some? && |End(u, w, steps).cluster.ipam.value| > 0
    ensures Reachable(u, w, longer)
    ensures var store := End(u, w, longer);
            && store.status.rolledBack
            && store.cluster.ipam == ComponentSet(End(u, w, steps).cluster.ipam, "ipam", u.target)
            && store.cluster.ipam.value[0].image == Image("ipam", u.target)
  {
    var s1 := FailAfterSettingIpam(u, w, steps);
    CanSetManagerStays(u, w, s1);
    hide Run, Initial, Latest, Work, Goal, Idle, CanSetManager, SetFirstImage;
    var store := End(u, w, s1);
    var job := BuildJob(u, End(u, w, steps).status, Rollback);
    RollbackJobsAreRight(u, w, s1, job);
    assert ':' !in job.version;
    ManagerIsThere(u, store.cluster);
    RollbackJobCanSucceed(store.cluster, job);
    longer := FinishRollback(u, w, s1, job, store.cluster.(manager := ManagerSet(store.cluster.manager, job.version)));
  }

  lemma ManagerIsThere(u: Upgrade, c: Cluster)
    requires CanSetManager(u, c)
    ensures c.manager.Some? && |c.manager.value| > 0 && c.manager.value[0].name == "controller-manager"
  {
  }

  /** A rollback job succeeds, and that is noticed. */
  lemma FinishRollback(u: Upgrade, w: World, steps: seq<Step>, job: JobSpec, c: Cluster) returns (longer: seq<Step>)
    requires Reachable(u, w, steps)
    requires var now := Run(u, w, steps).value;
             && Idle(u, now) && now.store.status.phase.RollingBack?
             && JobOf(u, now.store, Rollback) == Some(Job(job, Running))
             && Work(job, now.store.cluster, c) && Goal(job, c)
    ensures Reachable(u, w, longer)
    ensures End(u, w, longer).status.rolledBack && End(u, w, longer).cluster == c
  {
    hide Run, Initial, Work, Goal;
    var s1, w1 := EndJob(u, w, steps, Rollback, c, true);
    var s2, w2 := Look(u, w, s1, GOOD);
    var s3, w3 := Write(u, w, s2);
    longer := s3;
    assert Reachable(u, w, longer) && End(u, w, longer) == w3.store;
  }

  lemma NothingHappens(job: JobSpec, c: Cluster)
    ensures Work(job, c, c)
  {
  }
}
