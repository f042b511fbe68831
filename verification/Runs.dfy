// Runs of the upgrade protocol: reconciles advance call by call and may be cut off,
// jobs work on the cluster and end, finished jobs expire, the upgrade may be deleted.
module Runs {
  import opened Api
  import opened Cluster
  import opened Names
  import opened Protocol
  import Versions
  import opened Wrappers

  /** pending is what the one worker still has to do of the reconcile it is in. */
  datatype World = World(store: Store, pending: Plan)

  datatype Step =
    | Begin(o: Observation)
    | Proceed(fault: Fault)
    | CutOff
    | JobWorks(stage: Stage, cluster: Cluster)
    | JobEnds(stage: Stage, ok: bool)
    | JobExpires(stage: Stage)
    | GatewaysDrift(gateways: map<GatewayId, Workload>)
    | DeletionRequested

  function JobOf(u: Upgrade, store: Store, stage: Stage): (r: Option<Job>) {
    if OwnKey(u, stage) in store.jobs then Some(store.jobs[OwnKey(u, stage)]) else None
  }

  ghost predicate Enabled(u: Upgrade, w: World, step: Step) {
    match step
    case Begin(_) => w.pending.Done?
    case Proceed(_) => !w.pending.Done?
    case CutOff => !w.pending.Done?
    case JobWorks(stage, cluster) =>
      var job := JobOf(u, w.store, stage);
      job.Some? && job.value.state.Running? && Work(job.value.spec, w.store.cluster, cluster)
    case JobEnds(stage, ok) =>
      var job := JobOf(u, w.store, stage);
      job.Some? && job.value.state.Running? && (ok ==> Goal(job.value.spec, w.store.cluster))
    case JobExpires(stage) =>
      var job := JobOf(u, w.store, stage);
      job.Some? && !job.value.state.Running?
    case GatewaysDrift(_) => Latest(w.store.log, Fabric) != Never
    case DeletionRequested => !w.store.gone
  }

  ghost function Apply(u: Upgrade, w: World, step: Step): (r: World)
    requires Enabled(u, w, step)
  {
    var store := w.store;
    match step
    case Begin(o) => World(WithEvent(store, BeginEvent(store, o)), Decide(u, store, o))
    case Proceed(fault) => var r := Call(u, store, w.pending, fault); World(r.0, r.1)
    case CutOff => World(if w.pending.Put? then WithEvent(store, Lost(w.pending.status.phase)) else store, Done)
    case JobWorks(_, cluster) => w.(store := store.(cluster := cluster))
    case JobEnds(stage, ok) =>
      var job := store.jobs[OwnKey(u, stage)].(state := if ok then Succeeded else FailedJob);
      w.(store := WithEvent(store.(jobs := store.jobs[OwnKey(u, stage) := job]), Finished(stage, ok)))
    case JobExpires(stage) => w.(store := store.(jobs := store.jobs - {OwnKey(u, stage)}))
    case GatewaysDrift(gateways) => w.(store := store.(cluster := store.cluster.(gateways := gateways)))
    case DeletionRequested => w.(store := store.(deleting := true, gone := !store.finalizer))
  }

  /** A new upgrade: nothing recorded, no job of that name. */
  ghost predicate Initial(u: Upgrade, w: World) {
    && w.pending.Done?
    && (w.store.status == FRESH || w.store.status == FRESH.(phase := Pending))
    && !w.store.gone
    && w.store.log == []
    && (forall k :: k in w.store.jobs ==> k.upgrade != u.name)
  }

  /** Where a sequence of steps leads, if each was possible in its turn. */
  ghost function Run(u: Upgrade, w: World, steps: seq<Step>): (r: Option<World>) {
    if |steps| == 0 then Some(w)
    else
      var before := Run(u, w, steps[..|steps| - 1]);
      var step := steps[|steps| - 1];
      if before.Some? && Enabled(u, before.value, step) then Some(Apply(u, before.value, step)) else None
  }

  // ---------------------------------------------------------------- history

  datatype Track = Never | Live | Ended(ok: bool)

  /** What became of the latest job of a stage. */
  function Latest(log: seq<Event>, stage: Stage): (r: Track) {
    if |log| == 0 then Never
    else
      match log[|log| - 1]
      case Created(s, _) => if s == stage then Live else Latest(log[..|log| - 1], stage)
      case Finished(s, ok) => if s == stage then Ended(ok) else Latest(log[..|log| - 1], stage)
      case _ => Latest(log[..|log| - 1], stage)
  }

  /** The milestones of a complete upgrade, in order. */
  ghost predicate IsMilestone(u: Upgrade, n: nat, e: Event) {
    match n
    case 1 => e.Created? && e.stage.Freeze?
    case 2 => e == Finished(Freeze, true)
    case 3 => e.Created? && e.stage.Crd?
    case 4 => e == Finished(Crd, true)
    case 5 => e.Created? && e.stage.Manager?
    case 6 => e == Finished(Manager, true)
    case 7 => e.Created? && e.stage.Fabric?
    case 8 => e == Finished(Fabric, true)
    case 9 => e.Looked? && e.phase.Verifying? && e.o.ready && e.version == Some(u.target)
    case _ => false
  }

  /** The first n milestones occur in the log, one after the other. */
  ghost predicate Reached(u: Upgrade, log: seq<Event>, n: nat) {
    n == 0 || (|log| > 0 &&
      (Reached(u, log[..|log| - 1], n) || (IsMilestone(u, n, log[|log| - 1]) && Reached(u, log[..|log| - 1], n - 1))))
  }

  /** The write that is to end the start of a rollback did not happen: that of RollingBack,
      or that of Failed although a rollback job had been created. */
  ghost predicate IsRollbackLoss(log: seq<Event>, e: Event) {
    e == Lost(RollingBack) || (e == Lost(Failed) && Latest(log, Rollback) != Never)
  }

  ghost predicate RollbackWriteLost(log: seq<Event>) {
    |log| > 0 && (RollbackWriteLost(log[..|log| - 1]) || IsRollbackLoss(log[..|log| - 1], log[|log| - 1]))
  }

  /** A validation whose reads passed every check, starting from the given version. */
  ghost predicate PassesValidation(u: Upgrade, local: string, e: Event) {
    && e.Looked? && e.phase.Validating? && e.version == Some(local)
    && e.o.identityRead && e.o.versionRead && e.o.backupRead && e.o.ready
    && e.o.remotes.Some? && e.o.matrix.Some?
    && Versions.Gate(e.o.matrix.value, [local] + Versions.Defaulted(local, e.o.remotes.value), u.target)
  }

  lemma Appending(log: seq<Event>, e: Event, stage: Stage)
    ensures Latest(log + [e], stage)
         == (match e
             case Created(t, _) => if stage == t then Live else Latest(log, stage)
             case Finished(t, ok) => if stage == t then Ended(ok) else Latest(log, stage)
             case _ => Latest(log, stage))
  {
    assert (log + [e])[..|log|] == log;
  }

  lemma AppendingMilestone(u: Upgrade, log: seq<Event>, e: Event, n: nat)
    ensures Reached(u, log, n) ==> Reached(u, log + [e], n)
    ensures n > 0 && IsMilestone(u, n, e) && Reached(u, log, n - 1) ==> Reached(u, log + [e], n)
  {
    assert (log + [e])[..|log|] == log;
  }

  lemma AppendingLoss(log: seq<Event>, e: Event)
    ensures RollbackWriteLost(log + [e]) == (RollbackWriteLost(log) || IsRollbackLoss(log, e))
  {
    assert (log + [e])[..|log|] == log;
  }

  /** Reached, spelt out: increasing positions of the milestones. */
  lemma {:induction false} MilestonesInOrder(u: Upgrade, log: seq<Event>, n: nat) returns (at: seq<nat>)
    requires Reached(u, log, n)
    ensures |at| == n
    ensures forall i :: 0 <= i < n ==> at[i] < |log| && IsMilestone(u, i + 1, log[at[i]])
    ensures forall i, j :: 0 <= i < j < n ==> at[i] < at[j]
    decreases |log|
  {
    if n == 0 {
      at := [];
    } else {
      var front := log[..|log| - 1];
      if Reached(u, front, n) {
        at := MilestonesInOrder(u, front, n);
      } else {
        var before := MilestonesInOrder(u, front, n - 1);
        at := before + [|log| - 1];
      }
    }
  }
}
