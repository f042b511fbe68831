// Runs without failures of the API, in which every job ends and is seen to have ended,
// come to an end.
module Progress {
  import opened Api
  import Decisions
  import opened Invariant
  import opened Names
  import opened Protocol
  import opened Recovery
  import opened Runs
  import opened Safety
  import opened Wrappers

  /** The job being watched is still to end. */
  predicate Waiting(u: Upgrade, store: Store) {
    var stage := Watched(store.status.phase);
    stage.Some? && JobOf(u, store, stage.value).Some? && JobOf(u, store, stage.value).value.state.Running?
  }

  predicate Orderly(u: Upgrade, store: Store) {
    && u.namespace != "" && OwnsItsJobs(u)
    && !store.deleting && !store.gone && !store.status.phase.OtherPhase?
    && (Watched(store.status.phase).Some? ==> JobOf(u, store, Watched(store.status.phase).value).Some?)
  }

  /** Whatever faults there were, once a reconcile is over the upgrade is in order or waits for good. */
  lemma IdleIsOrderlyOrStuck(u: Upgrade, w: World, steps: seq<Step>)
    requires Reachable(u, w, steps) && u.namespace != "" && OwnsItsJobs(u)
    requires var now := Run(u, w, steps).value; now.pending.Done? && !now.store.deleting && !now.store.gone
    ensures Orderly(u, End(u, w, steps)) <==> !Stuck(u, Run(u, w, steps).value)
  {
    hide StoreOk, PlanOk, Prepared, FactsOf, Run;
    Decisions.RunKeepsInv(u, w, steps);
  }

  /** One round: the watched job ends, either way, or else there is a whole reconcile,
      undisturbed, whatever it observes of the cluster. */
  ghost predicate Round(u: Upgrade, a: Store, b: Store) {
    if Waiting(u, a) then
      var key := OwnKey(u, Watched(a.status.phase).value);
      exists state ::
        && state != Running
        && b == a.(jobs := a.jobs[key := a.jobs[key].(state := state)], cluster := b.cluster, log := b.log)
    else
      exists o: Observation :: o.upgradeRead && o.jobRead && b == Reconcile(u, a, o, []).0
  }

  /** Falls with every round; at most 16, since no job is waited for at first. */
  function Measure(u: Upgrade, store: Store): (r: nat) {
    2 * (8 - Rank(store.status.phase)) + if Waiting(u, store) then 1 else 0
  }

  function LastPlanPhase(plan: Plan, s: Status): (r: Phase) { LastStatus(plan, s).phase }

  /** What a plan leads to: a later phase, whose job it creates. */
  ghost predicate MovesOn(plan: Plan, s: Status) {
    var phase := LastPlanPhase(plan, s);
    && Rank(s.phase) < Rank(phase) && !phase.OtherPhase?
    && (Watched(phase).Some? ==> Watched(phase).value in Creations(plan))
  }

  lemma WriteMovesOn(t: Status, s: Status)
    requires Rank(s.phase) < Rank(t.phase) && !t.phase.OtherPhase? && Watched(t.phase).None?
    ensures MovesOn(Put(t, Done), s)
  {
    WriteLeadsTo(t, s);
  }

  lemma SuccessMovesOn(u: Upgrade, s: Status, stage: Stage)
    requires OwnsItsJobs(u) && s.phase == PhaseOf(stage)
    ensures MovesOn(StageSucceeded(u, s, stage), s)
  {
    hide LastStatus, Creations, Start;
    var recorded := s.(phase := PhaseOf(stage), lastSuccessfulPhase := PhaseOf(stage));
    match stage
    case Freeze => StartLeadsTo(u, s, Crd);
    case Crd =>
      StartLeadsTo(u, recorded, Manager);
      WriteThenLeadsTo(recorded, Start(u, recorded, Manager), s);
    case Manager =>
      StartLeadsTo(u, recorded, Fabric);
      WriteThenLeadsTo(recorded, Start(u, recorded, Fabric), s);
    case Fabric =>
      WriteThenLeadsTo(recorded, Put(recorded.(phase := Verifying), Done), s);
      WriteLeadsTo(recorded.(phase := Verifying), recorded);
    case Rollback => WriteMovesOn(s.(phase := Failed, rolledBack := true), s);
  }

  lemma RollbackMovesOn(u: Upgrade, s: Status)
    requires Rank(s.phase) < Rank(RollingBack)
    ensures MovesOn(StartRollback(u, s), s)
  {
    RollbackLeadsTo(u, s);
  }

  /** A reconcile that does not wait moves the phase on, to one whose job exists. */
  lemma DispatchMovesOn(u: Upgrade, s: Status, view: View, o: Observation)
    requires OwnsItsJobs(u) && !Terminal(s.phase)
    requires Watched(s.phase).Some? ==> view.job in {Some(Succeeded), Some(FailedJob)}
    ensures MovesOn(Dispatch(u, s, view, o), s)
  {
    hide LastStatus, Creations, StartRollback, StageSucceeded, Validate, MovesOn;
    var stage := Watched(s.phase);
    if s.phase.RollingBack? {
      SuccessMovesOn(u, s, Rollback);
      WriteMovesOn(s.(phase := Failed, rolledBack := false), s);
    } else {
      RollbackMovesOn(u, s);
      if stage.Some? {
        SuccessMovesOn(u, s, stage.value);
      } else if s.phase.Validating? {
        ValidationLeadsTo(u, s, view, o);
      } else if s.phase.Verifying? {
        WriteMovesOn(s.(phase := Completed, conditions := s.conditions + [Healthy]), s);
      } else {
        WriteMovesOn(s.(phase := Validating, totalStages := 9, currentStage := 0), s);
      }
    }
  }

  lemma WriteLeadsTo(t: Status, s: Status)
    ensures LastStatus(Put(t, Done), s) == t && Creations(Put(t, Done)) == map[]
  {
    assert LastStatus(Done, t) == t && Creations(Done) == map[];
  }

  lemma WriteThenLeadsTo(t: Status, next: Plan, s: Status)
    ensures LastStatus(Put(t, next), s) == LastStatus(next, t) && Creations(Put(t, next)) == Creations(next)
  {
  }

  lemma RollbackLeadsTo(u: Upgrade, s: Status)
    ensures LastStatus(StartRollback(u, s), s).phase in {Failed, RollingBack}
    ensures LastStatus(StartRollback(u, s), s).phase.RollingBack? ==> Rollback in Creations(StartRollback(u, s))
  {
    var settled := s.(phase := RollingBack, conditions := s.conditions + [RollbackRequired]);
    WriteLeadsTo(settled, s);
    WriteLeadsTo(s.(phase := Failed), s);
  }

  lemma ValidationLeadsTo(u: Upgrade, s: Status, view: View, o: Observation)
    requires OwnsItsJobs(u) && s.phase.Validating?
    ensures MovesOn(Validate(u, s, view.manager, o), s)
  {
    hide LastStatus, Creations;
    var plan := Validate(u, s, view.manager, o);
    WriteLeadsTo(s.(phase := Failed), s);
    if plan.Save? {
      SaveLeadsTo(plan, s);
      var s1 := s.(backupName := BackupName(u), backupReady := true);
      WriteLeadsTo(s1.(phase := Failed), s);
      var t := s1.(phase := Validating, previousVersion := DetectIn(view.manager).value, conditions := [Compatible]);
      StartLeadsTo(u, t, Freeze);
      WriteThenLeadsTo(t, Start(u, t, Freeze), s);
    }
  }

  lemma SaveLeadsTo(plan: Plan, s: Status)
    requires plan.Save?
    ensures LastStatus(plan, s) == LastStatus(plan.saved, s) && Creations(plan) == Creations(plan.saved)
  {
  }

  /** Every round makes progress. */
  lemma RoundMakesProgress(u: Upgrade, a: Store, b: Store)
    requires Orderly(u, a) && Round(u, a, b) && !Terminal(a.status.phase)
    ensures Orderly(u, b) && Measure(u, b) < Measure(u, a)
    ensures b.status.phase == a.status.phase || Rank(a.status.phase) < Rank(b.status.phase)
  {
    if !Waiting(u, a) {
      var o: Observation :| o.upgradeRead && o.jobRead && b == Reconcile(u, a, o, []).0;
      var view, plan := ViewOf(u, a, o), Decide(u, a, o);
      var rest := Dispatch(u, a.status, view, o);
      hide Dispatch;
      DispatchMovesOn(u, a.status, view, o);
      DispatchResumes(u, a.status, view, o);
      FineStatus(u, WithEvent(a, BeginEvent(a, o)), plan);
      FineCreatesJobs(u, WithEvent(a, BeginEvent(a, o)), plan);
      assert LastStatus(plan, a.status) == LastStatus(rest, a.status) && Creations(plan) == Creations(rest);
      ConstructiveKeepsFlags(u, WithEvent(a, BeginEvent(a, o)), plan);
    }
  }

  lemma {:induction false} ConstructiveKeepsFlags(u: Upgrade, store: Store, plan: Plan)
    requires Constructive(plan)
    ensures var after := Exec(u, store, plan, []).0;
            after.deleting == store.deleting && after.gone == store.gone
    decreases Length(plan)
  {
    if !plan.Done? {
      var r := Call(u, store, plan, Fine);
      ConstructiveKeepsFlags(u, r.0, r.1);
    }
  }

  ghost predicate Rounds(u: Upgrade, ss: seq<Store>) {
    forall i :: 0 <= i < |ss| - 1 ==> Round(u, ss[i], ss[i + 1])
  }

  /** The number of times that the persisted phase changes. */
  function PhaseChanges(ss: seq<Store>): (r: nat) {
    if |ss| < 2 then 0
    else PhaseChanges(ss[1..]) + if ss[0].status.phase != ss[1].status.phase then 1 else 0
  }

  /** An orderly run is over, Completed or Failed, after as many rounds as its measure says
      (16 from the start), and its phase changes at most eight times. */
  lemma {:induction false} OrderlyRunsEnd(u: Upgrade, ss: seq<Store>)
    requires |ss| > 0 && Orderly(u, ss[0]) && Rounds(u, ss)
    requires forall i :: 0 <= i < |ss| - 1 ==> !Terminal(ss[i].status.phase)
    ensures Measure(u, ss[|ss| - 1]) + |ss| - 1 <= Measure(u, ss[0]) <= 16
    ensures Orderly(u, ss[|ss| - 1])
    ensures |ss| - 1 == Measure(u, ss[0]) ==> ss[|ss| - 1].status.phase in {Completed, Failed}
    ensures Rank(ss[0].status.phase) + PhaseChanges(ss) <= Rank(ss[|ss| - 1].status.phase) <= 8
  {
    hide Round, Orderly;
    if |ss| > 1 {
      RoundMakesProgress(u, ss[0], ss[1]);
      var tail := ss[1..];
      assert forall i :: 0 <= i < |tail| - 1 ==> Round(u, tail[i], tail[i + 1]);
      OrderlyRunsEnd(u, tail);
    }
    OrderlyPhaseIsKnown(u, ss[|ss| - 1]);
  }

  lemma OrderlyPhaseIsKnown(u: Upgrade, store: Store)
    ensures Orderly(u, store) ==> !store.status.phase.OtherPhase?
  {
  }
}
