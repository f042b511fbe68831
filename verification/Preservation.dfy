// Every step of the protocol keeps the invariant.
module Preservation {
  import opened Api
  import opened Cluster
  import opened Invariant
  import opened Names
  import opened Protocol
  import opened Runs

  // ---------------------------------------------------------------- history grows

  lemma SameFacts(u: Upgrade, base: Cluster, a: Store, b: Store)
    requires a.log == b.log && a.backup == b.backup
    ensures FactsOf(u, base, a) == FactsOf(u, base, b)
  {
  }

  lemma TrackIsLatest(u: Upgrade, base: Cluster, store: Store, stage: Stage)
    ensures TrackOf(FactsOf(u, base, store), stage) == Latest(store.log, stage)
  {
    hide Latest, Reached, Gated, Saved;
  }

  lemma TracksGrow(u: Upgrade, base: Cluster, store: Store, e: Event, stage: Stage)
    ensures TrackOf(FactsOf(u, base, WithEvent(store, e)), stage)
         == (match e
             case Created(t, _) => if stage == t then Live else TrackOf(FactsOf(u, base, store), stage)
             case Finished(t, ok) => if stage == t then Ended(ok) else TrackOf(FactsOf(u, base, store), stage)
             case _ => TrackOf(FactsOf(u, base, store), stage))
  {
    TrackIsLatest(u, base, store, stage);
    TrackIsLatest(u, base, WithEvent(store, e), stage);
    hide FactsOf, TrackOf, Latest;
    Appending(store.log, e, stage);
  }

  lemma GateGrows(u: Upgrade, base: Cluster, log: seq<Event>, e: Event)
    ensures Gated(u, base, log) ==> Gated(u, base, log + [e])
    ensures DetectIn(base.manager).Some? && PassesValidation(u, Original(base), e) ==> Gated(u, base, log + [e])
  {
    hide PassesValidation;
    var longer := log + [e];
    assert longer[|log|] == e;
    assert forall i :: 0 <= i < |log| ==> longer[i] == log[i];
  }

  lemma FactsGrow(u: Upgrade, base: Cluster, store: Store, e: Event)
    ensures var f, g := FactsOf(u, base, store), FactsOf(u, base, WithEvent(store, e));
            && g.saved == f.saved && (f.gated ==> g.gated) && (f.checked ==> g.checked)
            && (DetectIn(base.manager).Some? && PassesValidation(u, Original(base), e) ==> g.gated)
            && forall s :: TrackOf(g, s)
                 == (match e
                     case Created(t, _) => if s == t then Live else TrackOf(f, s)
                     case Finished(t, ok) => if s == t then Ended(ok) else TrackOf(f, s)
                     case _ => TrackOf(f, s))
  {
    hide Latest, Reached, Gated, Saved, PassesValidation;
    AppendingMilestone(u, store.log, e, 9);
    GateGrows(u, base, store.log, e);
    hide FactsOf, TrackOf;
    forall s { TracksGrow(u, base, store, e, s); }
  }

  lemma MilestonesGrow(u: Upgrade, log: seq<Event>, e: Event, f: Facts, g: Facts)
    requires MilestonesOk(u, log, f)
    requires forall s :: s != Rollback ==> TrackOf(g, s) == TrackOf(f, s)
    ensures MilestonesOk(u, log + [e], g)
  {
    forall s | s != Rollback
      ensures TrackOf(g, s) != Never ==> Reached(u, log + [e], 2 * Number(s) - 1)
      ensures TrackOf(g, s) == Ended(true) ==> Reached(u, log + [e], 2 * Number(s))
    {
      AppendingMilestone(u, log, e, 2 * Number(s) - 1);
      AppendingMilestone(u, log, e, 2 * Number(s));
    }
  }

  predicate IsNote(e: Event) { e.Looked? || e.Lost? }

  /** Recording an observation or a loss. */
  lemma NoteKeeps(u: Upgrade, base: Cluster, store: Store, e: Event)
    requires IsNote(e) && StoreOk(u, base, store, FactsOf(u, base, store))
    ensures Moves(FactsOf(u, base, store), FactsOf(u, base, WithEvent(store, e)))
    ensures StoreOk(u, base, WithEvent(store, e), FactsOf(u, base, WithEvent(store, e)))
  {
    hide FactsOf, MilestonesOk, ClusterOk, LogOk, JobsOk, OneLive, IsNote;
    var next := WithEvent(store, e);
    var f, g := FactsOf(u, base, store), FactsOf(u, base, next);
    assert !e.Created? && !e.Finished? by { NoteIsNoJobEvent(e); }
    FactsGrow(u, base, store, e);
    SameTracks(f, g);
    MilestonesGrow(u, store.log, e, f, g);
    NoteKeepsParts(u, base, store, e, f, g);
  }

  lemma NoteIsNoJobEvent(e: Event)
    requires IsNote(e)
    ensures !e.Created? && !e.Finished?
  {
  }

  lemma NoteKeepsParts(u: Upgrade, base: Cluster, store: Store, e: Event, f: Facts, g: Facts)
    requires JobsOk(u, store, f) && OneLive(f) && LogOk(u, base, store.log, f) && ClusterOk(u, base, store.cluster, f)
    requires g == f.(saved := g.saved, gated := g.gated, checked := g.checked) && (f.gated ==> g.gated)
    requires IsNote(e)
    ensures var next := WithEvent(store, e);
            JobsOk(u, next, g) && OneLive(g) && LogOk(u, base, next.log, g) && ClusterOk(u, base, next.cluster, g)
  {
    var next := WithEvent(store, e);
    assert forall s :: TrackOf(g, s) == TrackOf(f, s);
    assert JobsOk(u, next, g) by {
      assert forall s :: JobOf(u, next, s) == JobOf(u, store, s);
    }
    assert forall i :: 0 <= i < |store.log| ==> next.log[i] == store.log[i];
    hide JobsOk, ClusterOk;
  }

  lemma SameTracks(f: Facts, g: Facts)
    requires forall s :: TrackOf(g, s) == TrackOf(f, s)
    ensures g.freeze == f.freeze && g.crd == f.crd && g.manager == f.manager
    ensures g.fabric == f.fabric && g.rollback == f.rollback
  {
    assert TrackOf(g, Freeze) == TrackOf(f, Freeze) && TrackOf(g, Crd) == TrackOf(f, Crd);
    assert TrackOf(g, Manager) == TrackOf(f, Manager) && TrackOf(g, Fabric) == TrackOf(f, Fabric);
    assert TrackOf(g, Rollback) == TrackOf(f, Rollback);
  }

  lemma NoteKeepsInv(u: Upgrade, base: Cluster, w: World, e: Event)
    requires Inv(u, base, w) && IsNote(e)
    ensures var g := FactsOf(u, base, WithEvent(w.store, e));
            && StatusOk(u, base, w.store.status, g)
            && PlanOk(u, base, w.pending, w.store.status, g)
            && StoreOk(u, base, WithEvent(w.store, e), g)
            && Moves(FactsOf(u, base, w.store), g)
            && (RollbackWriteLost(w.store.log) ==> RollbackWriteLost(WithEvent(w.store, e).log))
            && (e.Lost? && e.phase in {RollingBack, Failed} && g.rollback != Never ==>
                  RollbackWriteLost(WithEvent(w.store, e).log))
  {
    var f, g := FactsOf(u, base, w.store), FactsOf(u, base, WithEvent(w.store, e));
    NoteKeeps(u, base, w.store, e);
    StatusStays(u, base, w.store.status, f, g);
    PlanStays(u, base, w.pending, w.store.status, f, g);
    AppendingLoss(w.store.log, e);
    Appending(w.store.log, e, Rollback);
  }

  // ---------------------------------------------------------------- API calls

  lemma CreateKeepsStatus(u: Upgrade, base: Cluster, stage: Stage, job: JobSpec, s: Status, f: Facts, t: Track)
    requires CreateOk(u, base, stage, job, s.phase, f) && StatusOk(u, base, s, f) && t != Never
    ensures StatusOk(u, base, s, WithTrack(f, stage, t))
  {
  }

  lemma CreationKeepsJobs(u: Upgrade, store: Store, stage: Stage, job: JobSpec, f: Facts, g: Facts)
    requires JobsOk(u, store, f) && OwnKey(u, stage) !in store.jobs
    requires forall s :: TrackOf(g, s) == if s == stage then Live else TrackOf(f, s)
    ensures JobsOk(u, WithJob(u, store, stage, job), g)
  {
    var next := WithJob(u, store, stage, job);
    assert next.log[|store.log|] == Created(stage, job);
    forall s | JobOf(u, next, s).Some?
      ensures Agrees(JobOf(u, next, s).value.state, TrackOf(g, s))
      ensures Created(s, JobOf(u, next, s).value.spec) in next.log
    {
      if s != stage { assert JobOf(u, next, s) == JobOf(u, store, s); }
    }
  }

  lemma CreationKeepsOneLive(u: Upgrade, base: Cluster, stage: Stage, job: JobSpec, phase: Phase, f: Facts, g: Facts)
    requires OneLive(f) && CreateOk(u, base, stage, job, phase, f)
    requires forall s :: TrackOf(g, s) == if s == stage then Live else TrackOf(f, s)
    ensures OneLive(g)
  {
    assert TrackOf(f, Freeze) == f.freeze && TrackOf(f, Crd) == f.crd && TrackOf(f, Manager) == f.manager;
    assert TrackOf(f, Fabric) == f.fabric && TrackOf(f, Rollback) == f.rollback;
    assert g.rollback == TrackOf(g, Rollback);
    assert forall s :: s != stage && s != Rollback ==> TrackOf(f, s) != Live;
  }

  lemma CreationKeepsCluster(u: Upgrade, base: Cluster, c: Cluster, stage: Stage, job: JobSpec, phase: Phase, f: Facts, g: Facts)
    requires ClusterOk(u, base, c, f) && CreateOk(u, base, stage, job, phase, f)
    requires g == WithTrack(f, stage, Live).(gated := g.gated, checked := g.checked)
    ensures ClusterOk(u, base, c, g)
  {
    hide WithinReach, CrdsAt, SameFabric, ManagerAt, FabricAt, TemplateAt, JobOk;
  }

  /** A job that did not exist is created. */
  lemma CreationKeepsStore(u: Upgrade, base: Cluster, store: Store, stage: Stage, job: JobSpec)
    requires var f := FactsOf(u, base, store);
             StoreOk(u, base, store, f) && CreateOk(u, base, stage, job, store.status.phase, f)
    requires OwnKey(u, stage) !in store.jobs
    ensures var f := FactsOf(u, base, store);
            var g := FactsOf(u, base, WithJob(u, store, stage, job));
            && Moves(WithTrack(f, stage, Live), g)
            && StoreOk(u, base, WithJob(u, store, stage, job), g)
  {
    var next, e := WithJob(u, store, stage, job), Created(stage, job);
    var f, g := FactsOf(u, base, store), FactsOf(u, base, next);
    hide FactsOf, JobsOk, OneLive, LogOk, MilestonesOk, ClusterOk, CreateOk;
    FactsGrow(u, base, store, e);
    SameFacts(u, base, next, WithEvent(store, e));
    var h := WithTrack(f, stage, Live);
    assert forall s :: TrackOf(h, s) == if s == stage then Live else TrackOf(f, s);
    SameTracks(h, g);
    CreationKeepsJobs(u, store, stage, job, f, g);
    CreationKeepsOneLive(u, base, stage, job, store.status.phase, f, g);
    CreationKeepsLog(u, base, store.log, stage, job, store.status.phase, f, g);
    CreationKeepsMilestones(u, base, store.log, stage, job, store.status.phase, f, g);
    CreationKeepsCluster(u, base, store.cluster, stage, job, store.status.phase, f, g);
  }

  lemma CreationKeepsLog(u: Upgrade, base: Cluster, log: seq<Event>, stage: Stage, job: JobSpec, phase: Phase, f: Facts, g: Facts)
    requires LogOk(u, base, log, f) && CreateOk(u, base, stage, job, phase, f)
    requires g == WithTrack(f, stage, Live).(gated := g.gated, checked := g.checked) && (f.gated ==> g.gated)
    ensures LogOk(u, base, log + [Created(stage, job)], g)
  {
    var longer := log + [Created(stage, job)];
    assert HighestSuccess(g) == HighestSuccess(f) || f.rollback == Never;
    forall i | 0 <= i < |longer| && longer[i].Created?
      ensures TrackOf(g, longer[i].stage) != Never && JobOk(u, base, g, longer[i].stage, longer[i].job)
    {
      if i < |log| {
        assert longer[i] == log[i];
        assert TrackOf(f, log[i].stage) != Never;
      }
    }
  }

  lemma CreationKeepsMilestones(u: Upgrade, base: Cluster, log: seq<Event>, stage: Stage, job: JobSpec, phase: Phase, f: Facts, g: Facts)
    requires MilestonesOk(u, log, f) && CreateOk(u, base, stage, job, phase, f)
    requires g == WithTrack(f, stage, Live).(gated := g.gated, checked := g.checked)
    ensures MilestonesOk(u, log + [Created(stage, job)], g)
  {
    var e := Created(stage, job);
    assert TrackOf(f, Freeze) == f.freeze && TrackOf(f, Crd) == f.crd && TrackOf(f, Manager) == f.manager;
    forall s | s != Rollback
      ensures TrackOf(g, s) != Never ==> Reached(u, log + [e], 2 * Number(s) - 1)
      ensures TrackOf(g, s) == Ended(true) ==> Reached(u, log + [e], 2 * Number(s))
    {
      AppendingMilestone(u, log, e, 2 * Number(s) - 1);
      AppendingMilestone(u, log, e, 2 * Number(s));
      if s != stage { assert TrackOf(g, s) == TrackOf(f, s); }
    }
  }

  lemma {:induction false} CreateKeeps(u: Upgrade, base: Cluster, w: World, fault: Fault)
    requires Inv(u, base, w) && w.pending.Create?
    ensures Inv(u, base, Apply(u, w, Proceed(fault)))
  {
    hide StatusOk, CreateOk, StoreOk;
    var store, s := w.store, w.store.status;
    var Create(stage, job, created, refused) := w.pending;
    var f := FactsOf(u, base, store);
    if !fault.Refused? {
      if OwnKey(u, stage) in store.jobs {
        assert TrackOf(f, stage) != Never by { ExistingJobWasCreated(u, base, store, stage); }
        assert WithTrack(f, stage, TrackOf(f, stage)) == f;
      } else {
        var next := WithJob(u, store, stage, job);
        var g, h := FactsOf(u, base, next), WithTrack(f, stage, Live);
        CreationKeepsStore(u, base, store, stage, job);
        CreateKeepsStatus(u, base, stage, job, s, f, Live);
        StatusStays(u, base, s, h, g);
        PlanStays(u, base, created, s, h, g);
        PlanStays(u, base, refused, s, h, g);
        AppendingLoss(store.log, Created(stage, job));
        Appending(store.log, Created(stage, job), Rollback);
      }
    }
  }

  lemma ExistingJobWasCreated(u: Upgrade, base: Cluster, store: Store, stage: Stage)
    requires StoreOk(u, base, store, FactsOf(u, base, store)) && OwnKey(u, stage) in store.jobs
    ensures TrackOf(FactsOf(u, base, store), stage) != Never
  {
    assert JobOf(u, store, stage).Some?;
  }

  lemma {:induction false} PutKeeps(u: Upgrade, base: Cluster, w: World, fault: Fault)
    requires Inv(u, base, w) && w.pending.Put?
    ensures Inv(u, base, Apply(u, w, Proceed(fault)))
  {
    if fault.Refused? {
      NoteKeepsInv(u, base, w, Lost(w.pending.status.phase));
    } else {
      hide StatusOk, JobsOk, OneLive, LogOk, MilestonesOk, ClusterOk, FactsOf;
      var next := Apply(u, w, Proceed(fault));
      SameFacts(u, base, w.store, next.store);
      assert JobsOk(u, next.store, FactsOf(u, base, w.store)) by {
        SameJobs(u, w.store, next.store, FactsOf(u, base, w.store));
      }
    }
  }

  lemma SameJobs(u: Upgrade, a: Store, b: Store, f: Facts)
    requires JobsOk(u, a, f) && a.log == b.log
    requires forall k :: k in b.jobs ==> k in a.jobs && b.jobs[k] == a.jobs[k]
    ensures JobsOk(u, b, f)
  {
    assert forall s :: JobOf(u, b, s).Some? ==> JobOf(u, b, s) == JobOf(u, a, s);
  }

  /** Finalizer writes and the deletion of jobs. */
  lemma CleaningKeeps(u: Upgrade, base: Cluster, w: World, fault: Fault)
    requires Inv(u, base, w) && (w.pending.AddFinalizer? || w.pending.Delete? || w.pending.RemoveFinalizer?)
    ensures Inv(u, base, Apply(u, w, Proceed(fault)))
  {
    hide StatusOk, JobsOk, OneLive, LogOk, MilestonesOk, ClusterOk, FactsOf, LookupKey;
    var next := Apply(u, w, Proceed(fault));
    SameFacts(u, base, w.store, next.store);
    SameJobs(u, w.store, next.store, FactsOf(u, base, w.store));
  }

  /** Writing the backup. */
  lemma SaveKeeps(u: Upgrade, base: Cluster, w: World, fault: Fault)
    requires Inv(u, base, w) && w.pending.Save?
    ensures Inv(u, base, Apply(u, w, Proceed(fault)))
  {
    hide StatusOk, StoreOk, FactsOf;
    var next := Apply(u, w, Proceed(fault));
    var f := FactsOf(u, base, w.store);
    if fault.Refused? {
      assert next.store == w.store;
    } else {
      var h := f.(saved := true);
      SavedFacts(u, base, w.store, next.store);
      SavingIsAMove(f);
      StatusStays(u, base, w.store.status, f, h);
      SavingKeepsStore(u, base, w.store, next.store, f);
    }
  }

  lemma SavedFacts(u: Upgrade, base: Cluster, a: Store, b: Store)
    requires a.log == b.log && Saved(base, b.backup)
    ensures FactsOf(u, base, b) == FactsOf(u, base, a).(saved := true)
  {
  }

  lemma SavingIsAMove(f: Facts)
    ensures Moves(f, f.(saved := true))
  {
    var g := f.(saved := true);
    forall s ensures TrackOf(g, s) == TrackOf(f, s) {}
  }

  lemma SavingKeepsStore(u: Upgrade, base: Cluster, store: Store, next: Store, f: Facts)
    requires StoreOk(u, base, store, f) && next == store.(backup := next.backup)
    ensures StoreOk(u, base, next, f.(saved := true))
  {
    var g := f.(saved := true);
    assert forall s :: TrackOf(g, s) == TrackOf(f, s);
    assert HighestSuccess(g) == HighestSuccess(f);
    assert OneLive(g);
    SameJobs(u, store, next, f);
    hide WithinReach, CrdsAt, SameFabric, ManagerAt, FabricAt, TemplateAt;
  }

  // ---------------------------------------------------------------- jobs

  /** A running job changes the cluster within its bounds. */
  lemma WorkKeepsCluster(u: Upgrade, base: Cluster, c: Cluster, d: Cluster, f: Facts, stage: Stage, job: JobSpec)
    requires ClusterOk(u, base, c, f) && OneLive(f) && Work(job, c, d)
    requires TrackOf(f, stage) == Live && JobOk(u, base, f, stage, job)
    ensures ClusterOk(u, base, d, f)
  {
    WorkStaysWithinReach(job, base, c, d, u.target, Original(base));
    hide WithinReach;
    assert stage != Rollback ==> f.rollback == Never by {
      assert f.rollback == TrackOf(f, Rollback);
    }
    assert stage != Freeze ==> f.freeze != Live by { assert f.freeze == TrackOf(f, Freeze); }
    if stage == Rollback && job.lastPhase == NetworkFabric {
      assert f.fabric == Ended(true);
    }
  }

  lemma JobWorksKeeps(u: Upgrade, base: Cluster, w: World, stage: Stage, c: Cluster)
    requires Inv(u, base, w) && Enabled(u, w, JobWorks(stage, c))
    ensures Inv(u, base, Apply(u, w, JobWorks(stage, c)))
  {
    hide StatusOk, PlanOk, JobOk, OneLive, LogOk, MilestonesOk, ClusterOk, FactsOf, Work;
    var next := Apply(u, w, JobWorks(stage, c));
    var f, job := FactsOf(u, base, w.store), JobOf(u, w.store, stage).value;
    SameFacts(u, base, w.store, next.store);
    SameJobs(u, w.store, next.store, f);
    RunningJob(u, base, w.store, f, stage);
    WorkKeepsCluster(u, base, w.store.cluster, c, f, stage, job.spec);
  }

  /** A running job ends; the cluster is as its script left it. */
  lemma EndKeepsCluster(u: Upgrade, base: Cluster, c: Cluster, f: Facts, g: Facts, stage: Stage, job: JobSpec, ok: bool)
    requires ClusterOk(u, base, c, f) && OneLive(f)
    requires TrackOf(f, stage) == Live && JobOk(u, base, f, stage, job) && (ok ==> Goal(job, c))
    requires g == WithTrack(f, stage, Ended(ok)).(gated := g.gated, checked := g.checked)
    ensures ClusterOk(u, base, c, g)
  {
    hide WithinReach, CrdsAt, SameFabric, ManagerAt, FabricAt, TemplateAt;
    assert f.rollback == TrackOf(f, Rollback);
  }

  lemma EndKeepsLog(u: Upgrade, base: Cluster, log: seq<Event>, f: Facts, g: Facts, stage: Stage, ok: bool)
    requires LogOk(u, base, log, f) && OneLive(f) && TrackOf(f, stage) == Live
    requires g == WithTrack(f, stage, Ended(ok)).(gated := g.gated, checked := g.checked) && (f.gated ==> g.gated)
    ensures LogOk(u, base, log + [Finished(stage, ok)], g)
  {
    var longer := log + [Finished(stage, ok)];
    assert forall i :: 0 <= i < |log| ==> longer[i] == log[i];
    assert stage != Rollback ==> f.rollback == Never by { assert TrackOf(f, Rollback) == f.rollback; }
    assert stage == Rollback ==> HighestSuccess(g) == HighestSuccess(f);
    forall i | 0 <= i < |longer| && longer[i].Created?
      ensures TrackOf(g, longer[i].stage) != Never && JobOk(u, base, g, longer[i].stage, longer[i].job)
    {
      assert log[i] == longer[i];
      assert TrackOf(f, log[i].stage) != Never;
    }
  }

  lemma EndKeepsMilestones(u: Upgrade, log: seq<Event>, f: Facts, g: Facts, stage: Stage, ok: bool)
    requires MilestonesOk(u, log, f) && TrackOf(f, stage) == Live
    requires g == WithTrack(f, stage, Ended(ok)).(gated := g.gated, checked := g.checked)
    ensures MilestonesOk(u, log + [Finished(stage, ok)], g)
  {
    var e := Finished(stage, ok);
    forall s | s != Rollback
      ensures TrackOf(g, s) != Never ==> Reached(u, log + [e], 2 * Number(s) - 1)
      ensures TrackOf(g, s) == Ended(true) ==> Reached(u, log + [e], 2 * Number(s))
    {
      AppendingMilestone(u, log, e, 2 * Number(s) - 1);
      AppendingMilestone(u, log, e, 2 * Number(s));
      if s != stage { assert TrackOf(g, s) == TrackOf(f, s); }
    }
  }

  lemma EndKeepsJobs(u: Upgrade, store: Store, next: Store, f: Facts, g: Facts, stage: Stage, ok: bool)
    requires JobsOk(u, store, f) && JobOf(u, store, stage).Some?
    requires next.jobs == store.jobs[OwnKey(u, stage) := JobOf(u, store, stage).value.(state := if ok then Succeeded else FailedJob)]
    requires next.log == store.log + [Finished(stage, ok)]
    requires forall s :: TrackOf(g, s) == if s == stage then Ended(ok) else TrackOf(f, s)
    ensures JobsOk(u, next, g)
  {
    forall s | JobOf(u, next, s).Some?
      ensures Agrees(JobOf(u, next, s).value.state, TrackOf(g, s))
      ensures Created(s, JobOf(u, next, s).value.spec) in next.log
    {
      assert Created(s, JobOf(u, store, s).value.spec) in store.log;
      if s != stage { assert JobOf(u, next, s) == JobOf(u, store, s); }
    }
  }

  lemma EndKeepsOneLive(f: Facts, g: Facts, stage: Stage, ok: bool)
    requires OneLive(f) && TrackOf(f, stage) == Live
    requires forall s :: TrackOf(g, s) == if s == stage then Ended(ok) else TrackOf(f, s)
    ensures OneLive(g) && (f.saved == g.saved && (f.gated ==> g.gated) && (f.checked ==> g.checked) ==> Moves(f, g))
  {
    assert f.rollback == TrackOf(f, Rollback) && g.rollback == TrackOf(g, Rollback);
  }

  /** What the store says of a job that is running. */
  lemma RunningJob(u: Upgrade, base: Cluster, store: Store, f: Facts, stage: Stage)
    requires JobsOk(u, store, f) && LogOk(u, base, store.log, f)
    requires JobOf(u, store, stage).Some? && JobOf(u, store, stage).value.state.Running?
    ensures TrackOf(f, stage) == Live && JobOk(u, base, f, stage, JobOf(u, store, stage).value.spec)
  {
    var i :| 0 <= i < |store.log| && store.log[i] == Created(stage, JobOf(u, store, stage).value.spec);
  }

  lemma JobEndsKeeps(u: Upgrade, base: Cluster, w: World, stage: Stage, ok: bool)
    requires Inv(u, base, w) && Enabled(u, w, JobEnds(stage, ok))
    ensures Inv(u, base, Apply(u, w, JobEnds(stage, ok)))
  {
    hide StatusOk, PlanOk, JobOk, JobsOk, OneLive, LogOk, MilestonesOk, ClusterOk, FactsOf, Goal, Moves;
    var store, next, e := w.store, Apply(u, w, JobEnds(stage, ok)).store, Finished(stage, ok);
    var f, g, job := FactsOf(u, base, store), FactsOf(u, base, next), JobOf(u, store, stage).value;
    FactsGrow(u, base, store, e);
    SameFacts(u, base, next, WithEvent(store, e));
    var h := WithTrack(f, stage, Ended(ok));
    RunningJob(u, base, store, f, stage);
    assert forall s :: TrackOf(h, s) == if s == stage then Ended(ok) else TrackOf(f, s);
    SameTracks(h, g);
    EndKeepsStore(u, base, store, next, f, g, stage, job.spec, ok);
    EndKeepsOneLive(f, g, stage, ok);
    StatusStays(u, base, store.status, f, g);
    PlanStays(u, base, w.pending, store.status, f, g);
    AppendingLoss(store.log, e);
    assert f.rollback == TrackOf(f, Rollback) && g.rollback == TrackOf(g, Rollback);
  }

  lemma EndKeepsStore(u: Upgrade, base: Cluster, store: Store, next: Store, f: Facts, g: Facts, stage: Stage, job: JobSpec, ok: bool)
    requires StoreOk(u, base, store, f) && JobOf(u, store, stage).Some? && TrackOf(f, stage) == Live
    requires JobOk(u, base, f, stage, job) && (ok ==> Goal(job, store.cluster))
    requires next.jobs == store.jobs[OwnKey(u, stage) := JobOf(u, store, stage).value.(state := if ok then Succeeded else FailedJob)]
    requires next.log == store.log + [Finished(stage, ok)] && next.cluster == store.cluster
    requires forall s :: TrackOf(g, s) == if s == stage then Ended(ok) else TrackOf(f, s)
    requires g == WithTrack(f, stage, Ended(ok)).(gated := g.gated, checked := g.checked) && (f.gated ==> g.gated)
    ensures StoreOk(u, base, next, g)
  {
    hide JobOk, JobsOk, OneLive, LogOk, MilestonesOk, ClusterOk, Goal, JobOf, OwnKey, TrackOf, WithTrack;
    EndKeepsJobs(u, store, next, f, g, stage, ok);
    EndKeepsLog(u, base, store.log, f, g, stage, ok);
    EndKeepsMilestones(u, store.log, f, g, stage, ok);
    EndKeepsCluster(u, base, store.cluster, f, g, stage, job, ok);
    EndKeepsOneLive(f, g, stage, ok);
  }

  // ------------------------------------------------------- the other steps

  lemma EnvironmentKeeps(u: Upgrade, base: Cluster, w: World, step: Step)
    requires Inv(u, base, w) && Enabled(u, w, step)
    requires step.JobExpires? || step.GatewaysDrift? || step.DeletionRequested?
    ensures Inv(u, base, Apply(u, w, step))
  {
    hide StatusOk, PlanOk, JobsOk, OneLive, LogOk, MilestonesOk, MaySet, MaySetManager, MayPatch, OnlyApplied;
    var next := Apply(u, w, step).store;
    SameFacts(u, base, w.store, next);
    SameJobs(u, w.store, next, FactsOf(u, base, w.store));
  }

  lemma CutOffKeeps(u: Upgrade, base: Cluster, w: World)
    requires Inv(u, base, w) && Enabled(u, w, CutOff)
    ensures Inv(u, base, Apply(u, w, CutOff))
  {
    if w.pending.Put? { NoteKeepsInv(u, base, w, Lost(w.pending.status.phase)); }
  }
}
