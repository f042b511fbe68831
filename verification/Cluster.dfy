// The part of the cluster that the job scripts change, and what a script of each
// stage may do to it.  Scripts.dfy proves the scripts against these relations and
// Runs.dfy builds on them.
module Cluster {
  import opened Api
  import Backup
  import Images
  import opened Names
  import Strings
  import opened Wrappers

  /** The containers of a Deployment or DaemonSet. */
  type Workload = seq<Backup.Container>

  /** The container images of a gateway template, in order. */
  type Template = seq<string>

  datatype GatewayId = GatewayId(tenant: string, name: string)

  datatype Cluster = Cluster(
    crds: map<string, string>,            // CRD file -> version applied
    manager: Option<Workload>,            // liqo-controller-manager
    ipam: Option<Workload>,
    proxy: Option<Workload>,
    fabric: Option<Workload>,
    clientTemplate: Option<Template>,
    serverTemplate: Option<Template>,
    gateways: map<GatewayId, Workload>)   // gateway deployments of the tenants

  /** What a job was built with: the values formatted into its script. */
  datatype JobSpec = JobSpec(stage: Stage, version: string, lastPhase: Phase, namespace: string, backup: string)

  predicate FabricReached(job: JobSpec) { job.lastPhase == NetworkFabric }

  const REGISTRY := "ghcr.io/liqotech/"

  function Image(component: string, version: string): (r: string) {
    REGISTRY + component + ":" + version
  }

  function ManagerImage(version: string): (r: string) { Image("liqo-controller-manager", version) }

  // ---------------------------------------------------------------- kubectl

  /** kubectl set image w name=image. */
  function SetImage(w: Workload, name: string, image: string): (r: Workload)
    ensures |r| == |w|
    ensures SameShape(w, r)
  {
    seq(|w|, i requires 0 <= i < |w| => if w[i].name == name then w[i].(image := image) else w[i])
  }

  /** The same, naming the first container, as the fabric scripts do. */
  function SetFirstImage(w: Workload, image: string): (r: Workload)
    ensures |r| == |w|
    ensures |w| > 0 ==> r[0].image == image
  {
    if |w| == 0 then w else SetImage(w, w[0].name, image)
  }

  /** The JSON patch of the gateway templates: three replacements, all or nothing. */
  function PatchTemplate(t: Template, version: string): (r: Template) {
    if |t| < 3 then t
    else [Image("gateway", version), Image("gateway/wireguard", version), Image("gateway/geneve", version)] + t[3..]
  }

  /** The same of an object that need not exist. */
  function ManagerSet(w: Option<Workload>, version: string): (r: Option<Workload>) {
    if w.None? then None else Some(SetImage(w.value, "controller-manager", ManagerImage(version)))
  }

  function ComponentSet(w: Option<Workload>, component: string, version: string): (r: Option<Workload>) {
    if w.None? then None else Some(SetFirstImage(w.value, Image(component, version)))
  }

  function TemplatePatched(t: Option<Template>, version: string): (r: Option<Template>) {
    if t.None? then None else Some(PatchTemplate(t.value, version))
  }

  // ------------------------------------------------------------ comparing states

  /** Only images may differ: containers, environments and arguments are the same. */
  ghost predicate SameShape(w: Workload, r: Workload) {
    |w| == |r| && forall i :: 0 <= i < |w| ==> r[i].name == w[i].name && r[i].settings == w[i].settings
  }

  ghost predicate SameShapeIfAny(w: Option<Workload>, r: Option<Workload>) {
    (w.None? <==> r.None?) && (w.Some? ==> SameShape(w.value, r.value))
  }

  ghost predicate SameWorkloads(c: Cluster, d: Cluster) {
    && SameShapeIfAny(c.manager, d.manager)
    && SameShapeIfAny(c.ipam, d.ipam)
    && SameShapeIfAny(c.proxy, d.proxy)
    && SameShapeIfAny(c.fabric, d.fabric)
    && (c.clientTemplate.None? <==> d.clientTemplate.None?)
    && (c.serverTemplate.None? <==> d.serverTemplate.None?)
  }

  /** Everything the network fabric consists of is the same. */
  ghost predicate SameFabric(c: Cluster, d: Cluster) {
    && c.ipam == d.ipam && c.proxy == d.proxy && c.fabric == d.fabric
    && c.clientTemplate == d.clientTemplate && c.serverTemplate == d.serverTemplate
    && c.gateways == d.gateways
  }

  // ------------------------------------------------------------ what a job does

  /** Files are applied at a version, and none is removed. */
  ghost predicate OnlyApplied(before: map<string, string>, after: map<string, string>, version: string) {
    && before.Keys <= after.Keys
    && forall file :: file in after ==> (file in before && after[file] == before[file]) || after[file] == version
  }

  ghost predicate MaySet(before: Option<Workload>, after: Option<Workload>, component: string, version: string) {
    after == before || after == ComponentSet(before, component, version)
  }

  ghost predicate MaySetManager(before: Option<Workload>, after: Option<Workload>, version: string) {
    after == before || after == ManagerSet(before, version)
  }

  ghost predicate MayPatch(before: Option<Template>, after: Option<Template>, version: string) {
    after == before || after == TemplatePatched(before, version)
  }

  ghost predicate MaySetFabric(before: Cluster, after: Cluster, version: string) {
    && MaySet(before.ipam, after.ipam, "ipam", version)
    && MaySet(before.proxy, after.proxy, "proxy", version)
    && MaySet(before.fabric, after.fabric, "fabric", version)
  }

  /** Any part of what a job of this kind may do, from one moment of its run to a later one. */
  ghost predicate Work(job: JobSpec, before: Cluster, after: Cluster) {
    match job.stage
    case Freeze => after == before
    case Crd => after == before.(crds := after.crds) && OnlyApplied(before.crds, after.crds, job.version)
    case Manager =>
      && after == before.(manager := after.manager)
      && MaySetManager(before.manager, after.manager, job.version)
    case Fabric =>
      && after.crds == before.crds && after.manager == before.manager
      && MaySetFabric(before, after, job.version)
      && MayPatch(before.clientTemplate, after.clientTemplate, job.version)
      && MayPatch(before.serverTemplate, after.serverTemplate, job.version)
    case Rollback =>
      && MaySetManager(before.manager, after.manager, job.version)
      && (if FabricReached(job) then
            && after.crds == before.crds
            && after.clientTemplate == before.clientTemplate && after.serverTemplate == before.serverTemplate
            && MaySetFabric(before, after, job.version)
          else after == before.(manager := after.manager))
  }

  ghost predicate Applied(crds: map<string, string>, files: seq<string>, version: string) {
    forall i :: 0 <= i < |files| ==> files[i] in crds && crds[files[i]] == version
  }

  /** A list of CRD files, not empty, is installed at the version. */
  ghost predicate CrdsAt(c: Cluster, version: string) {
    exists files :: |files| > 0 && Applied(c.crds, files, version)
  }

  /** cut -d: -f2 of the first container's image is the version; under the usual
      container name that pins the whole image. */
  ghost predicate ManagerAt(c: Cluster, version: string) {
    && c.manager.Some? && |c.manager.value| > 0
    && Images.CutTag(c.manager.value[0].image) == version
    && (c.manager.value[0].name == "controller-manager" ==> c.manager.value[0].image == ManagerImage(version))
  }

  ghost predicate FirstImageIs(w: Option<Workload>, image: string) {
    w.Some? ==> |w.value| > 0 && w.value[0].image == image
  }

  ghost predicate FabricAt(c: Cluster, version: string) {
    && FirstImageIs(c.ipam, Image("ipam", version))
    && FirstImageIs(c.proxy, Image("proxy", version))
    && FirstImageIs(c.fabric, Image("fabric", version))
  }

  /** What stage 3 checks of a template: it lets the text that stands for "no template" pass. */
  ghost predicate TemplateAt(t: Option<Template>, version: string) {
    t.Some? && |t.value| > 0 ==> Strings.Contains(t.value[0], version) || t.value[0] == "not found"
  }

  /** What holds when a job exits with 0. */
  ghost predicate Goal(job: JobSpec, c: Cluster) {
    match job.stage
    case Freeze => true
    case Crd => CrdsAt(c, job.version)
    case Manager => ManagerAt(c, job.version)
    case Fabric =>
      && FabricAt(c, job.version)
      && TemplateAt(c.clientTemplate, job.version) && TemplateAt(c.serverTemplate, job.version)
    case Rollback => ManagerAt(c, job.version) && (FabricReached(job) ==> FabricAt(c, job.version))
  }

  // ------------------------------------------------------------ properties of Work

  lemma SettingTwice(w: Workload, name: string, image: string)
    ensures SetImage(SetImage(w, name, image), name, image) == SetImage(w, name, image)
  {
  }

  lemma SettingFirstTwice(w: Workload, image: string)
    ensures SetFirstImage(SetFirstImage(w, image), image) == SetFirstImage(w, image)
    ensures SameShape(w, SetFirstImage(w, image))
  {
  }

  lemma MaySetComposes(a: Option<Workload>, b: Option<Workload>, c: Option<Workload>, component: string, version: string)
    requires MaySet(a, b, component, version) && MaySet(b, c, component, version)
    ensures MaySet(a, c, component, version)
  {
    if a.Some? { SettingFirstTwice(a.value, Image(component, version)); }
  }

  lemma MayPatchComposes(a: Option<Template>, b: Option<Template>, c: Option<Template>, version: string)
    requires MayPatch(a, b, version) && MayPatch(b, c, version)
    ensures MayPatch(a, c, version)
  {
    if a.Some? && |a.value| >= 3 {
      var p := PatchTemplate(a.value, version);
      assert p[3..] == a.value[3..];
    }
  }

  /** A run of a job may be looked at in as many steps as one likes. */
  lemma WorkComposes(job: JobSpec, a: Cluster, b: Cluster, c: Cluster)
    requires Work(job, a, b) && Work(job, b, c)
    ensures Work(job, a, c)
  {
    if a.manager.Some? { SettingTwice(a.manager.value, "controller-manager", ManagerImage(job.version)); }
    if job.stage.Fabric? || (job.stage.Rollback? && FabricReached(job)) {
      MaySetComposes(a.ipam, b.ipam, c.ipam, "ipam", job.version);
      MaySetComposes(a.proxy, b.proxy, c.proxy, "proxy", job.version);
      MaySetComposes(a.fabric, b.fabric, c.fabric, "fabric", job.version);
    }
    if job.stage.Fabric? {
      MayPatchComposes(a.clientTemplate, b.clientTemplate, c.clientTemplate, job.version);
      MayPatchComposes(a.serverTemplate, b.serverTemplate, c.serverTemplate, job.version);
    }
  }

  // ------------------------------------------------- how far jobs can change it

  /** Images of managers and fabric components are as in base, or were set as a whole to one
      of the two versions; templates and CRDs only ever move to the target.  Nothing is
      said of the gateways. */
  ghost predicate WithinReach(base: Cluster, c: Cluster, target: string, original: string) {
    && OnlyApplied(base.crds, c.crds, target)
    && (MaySetManager(base.manager, c.manager, target) || MaySetManager(base.manager, c.manager, original))
    && (MaySet(base.ipam, c.ipam, "ipam", target) || MaySet(base.ipam, c.ipam, "ipam", original))
    && (MaySet(base.proxy, c.proxy, "proxy", target) || MaySet(base.proxy, c.proxy, "proxy", original))
    && (MaySet(base.fabric, c.fabric, "fabric", target) || MaySet(base.fabric, c.fabric, "fabric", original))
    && MayPatch(base.clientTemplate, c.clientTemplate, target)
    && MayPatch(base.serverTemplate, c.serverTemplate, target)
  }

  lemma SettingOver(w: Workload, name: string, image: string, other: string)
    ensures SetImage(SetImage(w, name, other), name, image) == SetImage(w, name, image)
    ensures SetFirstImage(SetFirstImage(w, other), image) == SetFirstImage(w, image)
  {
  }

  /** The last image set is the one that counts. */
  lemma SetOver(a: Option<Workload>, b: Option<Workload>, c: Option<Workload>, component: string, v: string, version: string)
    requires MaySet(a, b, component, v) && MaySet(b, c, component, version)
    ensures c == b || MaySet(a, c, component, version)
  {
    if a.Some? { SettingOver(a.value, "", Image(component, version), Image(component, v)); }
  }

  lemma SetManagerOver(a: Option<Workload>, b: Option<Workload>, c: Option<Workload>, v: string, version: string)
    requires MaySetManager(a, b, v) && MaySetManager(b, c, version)
    ensures c == b || MaySetManager(a, c, version)
  {
    if a.Some? { SettingOver(a.value, "controller-manager", ManagerImage(version), ManagerImage(v)); }
  }

  /** Whatever its job is, work of a job for one of the two versions stays within reach. */
  lemma WorkStaysWithinReach(job: JobSpec, base: Cluster, c: Cluster, d: Cluster, target: string, original: string)
    requires WithinReach(base, c, target, original) && Work(job, c, d)
    requires job.stage in {Crd, Manager, Fabric} ==> job.version == target
    requires job.stage.Rollback? ==> job.version == original
    ensures WithinReach(base, d, target, original)
  {
    hide MaySet, MaySetManager;
    if job.stage.Manager? || job.stage.Rollback? {
      ManagerOver(base.manager, c.manager, d.manager, target, original, job.version);
    }
    if job.stage.Fabric? || (job.stage.Rollback? && FabricReached(job)) {
      ComponentOver(base.ipam, c.ipam, d.ipam, "ipam", target, original, job.version);
      ComponentOver(base.proxy, c.proxy, d.proxy, "proxy", target, original, job.version);
      ComponentOver(base.fabric, c.fabric, d.fabric, "fabric", target, original, job.version);
    }
    if job.stage.Fabric? {
      MayPatchComposes(base.clientTemplate, c.clientTemplate, d.clientTemplate, target);
      MayPatchComposes(base.serverTemplate, c.serverTemplate, d.serverTemplate, target);
    }
  }

  lemma ManagerOver(a: Option<Workload>, b: Option<Workload>, c: Option<Workload>, t: string, o: string, version: string)
    requires MaySetManager(a, b, t) || MaySetManager(a, b, o)
    requires MaySetManager(b, c, version) && version in {t, o}
    ensures MaySetManager(a, c, t) || MaySetManager(a, c, o)
  {
    if MaySetManager(a, b, t) { SetManagerOver(a, b, c, t, version); } else { SetManagerOver(a, b, c, o, version); }
  }

  lemma ComponentOver(a: Option<Workload>, b: Option<Workload>, c: Option<Workload>, component: string, t: string, o: string, version: string)
    requires MaySet(a, b, component, t) || MaySet(a, b, component, o)
    requires MaySet(b, c, component, version) && version in {t, o}
    ensures MaySet(a, c, component, t) || MaySet(a, c, component, o)
  {
    if MaySet(a, b, component, t) { SetOver(a, b, c, component, t, version); } else { SetOver(a, b, c, component, o, version); }
  }

  lemma SetKeepsShape(before: Option<Workload>, after: Option<Workload>, component: string, version: string)
    requires MaySet(before, after, component, version)
    ensures SameShapeIfAny(before, after)
  {
    if before.Some? { SettingFirstTwice(before.value, Image(component, version)); }
  }

  /** Within reach, containers, environments and arguments are those of base. */
  lemma ReachKeepsWorkloads(base: Cluster, c: Cluster, target: string, original: string)
    requires WithinReach(base, c, target, original)
    ensures SameWorkloads(base, c)
  {
    forall component, now: Option<Workload>, before: Option<Workload>
      | MaySet(before, now, component, target) || MaySet(before, now, component, original)
      ensures SameShapeIfAny(before, now)
    {
      if MaySet(before, now, component, target) {
        SetKeepsShape(before, now, component, target);
      } else {
        SetKeepsShape(before, now, component, original);
      }
    }
    hide MaySet;
  }

  /** No job changes anything but images, CRDs and gateways. */
  lemma WorkKeepsWorkloads(job: JobSpec, a: Cluster, b: Cluster)
    requires Work(job, a, b)
    ensures SameWorkloads(a, b)
  {
    if job.stage.Fabric? || (job.stage.Rollback? && FabricReached(job)) {
      SetKeepsShape(a.ipam, b.ipam, "ipam", job.version);
      SetKeepsShape(a.proxy, b.proxy, "proxy", job.version);
      SetKeepsShape(a.fabric, b.fabric, "fabric", job.version);
    }
    hide MaySet, SetImage;
  }
}
