// Scripts as steps of the protocol: what a script does to the cluster, in as many steps
// as it took and whatever the reconciler does meanwhile, is something that a run of the
// protocol accounts for.
module Composition {
  import opened Api
  import opened Cluster
  import opened Names
  import opened Protocol
  import opened Recovery
  import opened Runs
  import opened Safety
  import Scripts
  import opened Wrappers

  /** Steps that the reconciler can take on its own, with any faults and cut-offs. */
  ghost predicate ReconcilerCan(u: Upgrade, w: World, others: seq<Step>) {
    && Run(u, w, others).Some?
    && forall i :: 0 <= i < |others| ==> others[i].Begin? || others[i].Proceed? || others[i].CutOff?
  }

  /** The job of a stage runs, and nothing is about to delete it. */
  ghost predicate AtWork(u: Upgrade, w: World, stage: Stage) {
    && JobOf(u, w.store, stage).Some? && JobOf(u, w.store, stage).value.state.Running?
    && !w.store.deleting && Constructive(w.pending)
  }

  lemma {:induction false} RunAppends(u: Upgrade, w: World, a: seq<Step>, b: seq<Step>)
    requires Run(u, w, a).Some?
    ensures Run(u, w, a + b) == Run(u, Run(u, w, a).value, b)
  {
    if |b| == 0 {
      assert a + b == a;
    } else {
      var front := b[..|b| - 1];
      RunAppends(u, w, a, front);
      assert (a + b)[..|a + b| - 1] == a + front;
    }
  }

  /** No steps of the reconciler touch the cluster or a job that runs. */
  lemma {:induction false} ReconcilerLeavesJob(u: Upgrade, w: World, others: seq<Step>, stage: Stage)
    requires ReconcilerCan(u, w, others) && AtWork(u, w, stage)
    ensures var after := Run(u, w, others).value;
            && AtWork(u, after, stage) && JobOf(u, after.store, stage) == JobOf(u, w.store, stage)
            && after.store.cluster == w.store.cluster
  {
    hide AtWork, Apply, Enabled;
    if |others| > 0 {
      var n := |others| - 1;
      ReconcilerLeavesJob(u, w, others[..n], stage);
      ReconcilerStep(u, Run(u, w, others[..n]).value, others[n], stage);
    }
  }

  lemma ReconcilerStep(u: Upgrade, w: World, step: Step, stage: Stage)
    requires AtWork(u, w, stage) && Enabled(u, w, step) && (step.Begin? || step.Proceed? || step.CutOff?)
    ensures var after := Apply(u, w, step);
            && AtWork(u, after, stage) && JobOf(u, after.store, stage) == JobOf(u, w.store, stage)
            && after.store.cluster == w.store.cluster
  {
    if step.Begin? { DispatchResumes(u, w.store.status, ViewOf(u, w.store, step.o), step.o); }
    hide Dispatch, ResumesThroughout, BeginEvent;
  }

  lemma TraceGoesOn(job: JobSpec, trail: seq<Cluster>)
    requires Scripts.Trace(job, trail) && |trail| > 1
    ensures Work(job, trail[0], trail[1]) && Scripts.Trace(job, trail[1..])
  {
    hide Work;
    assert Work(job, trail[0], trail[0 + 1]);
    var tail := trail[1..];
    forall i | 0 <= i < |tail| - 1 ensures Work(job, tail[i], tail[i + 1]) {
      var j := i + 1;
      assert Work(job, trail[j], trail[j + 1]);
    }
  }

  /** The states left behind by a script that Scripts.Script proves Valid are reached by JobWorks
      steps of the job it belongs to, and the script's exit can be the job's end, however the
      reconciler acts in between: others(n, v) are its steps in the world v when n states of
      the script are left. */
  lemma {:induction false} ScriptIsARun(u: Upgrade, w: World, steps: seq<Step>, stage: Stage, trail: seq<Cluster>, ok: bool,
                                        others: (nat, World) -> seq<Step>)
    returns (longer: seq<Step>)
    requires Reachable(u, w, steps) && AtWork(u, Run(u, w, steps).value, stage)
    requires forall n: nat, v: World :: ReconcilerCan(u, v, others(n, v))
    requires var job := JobOf(u, End(u, w, steps), stage).value;
             && Scripts.Trace(job.spec, trail) && trail[0] == End(u, w, steps).cluster
             && (ok ==> Goal(job.spec, trail[|trail| - 1]))
    ensures Reachable(u, w, longer) && steps <= longer
    ensures End(u, w, longer).cluster == trail[|trail| - 1]
    ensures JobAt(End(u, w, longer).jobs, OwnKey(u, stage)) == Some(if ok then Succeeded else FailedJob)
    ensures (forall n: nat, v: World :: others(n, v) == []) ==> End(u, w, longer).status == End(u, w, steps).status
    decreases |trail|
  {
    var now := Run(u, w, steps).value;
    var between := others(|trail|, now);
    RunAppends(u, w, steps, between);
    ReconcilerLeavesJob(u, now, between, stage);
    assert between == [] ==> steps + between == steps;
    hide Run, Work, Goal, Scripts.Trace, ReconcilerCan;
    var job := JobOf(u, End(u, w, steps), stage).value.spec;
    var before := steps + between;
    if |trail| == 1 {
      Extend(u, w, before, JobEnds(stage, ok));
      longer := before + [JobEnds(stage, ok)];
    } else {
      TraceGoesOn(job, trail);
      Extend(u, w, before, JobWorks(stage, trail[1]));
      longer := ScriptIsARun(u, w, before + [JobWorks(stage, trail[1])], stage, trail[1..], ok, others);
    }
  }
}
