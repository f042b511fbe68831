// What is back as it was when RolledBack is true, and what may still differ.
module Restoration {
  import opened Api
  import opened Cluster
  import Decisions
  import Images
  import opened Invariant
  import opened Names
  import opened Protocol
  import opened Runs
  import opened Safety
  import Strings
  import opened Wrappers

  /** What RolledBack = true promises about the cluster. */
  lemma RolledBackMeansRestored(u: Upgrade, w: World, steps: seq<Step>)
    requires Reachable(u, w, steps) && End(u, w, steps).status.rolledBack
    ensures var store, base := End(u, w, steps), w.store.cluster;
            var c, previous := store.cluster, store.status.previousVersion;
            && DetectIn(base.manager) == Some(previous)
            && ManagerAt(c, previous)
            && (base.manager.value[0].name == "controller-manager" ==> DetectIn(c.manager) == Some(previous))
            // only images may differ from before the upgrade...
            && SameWorkloads(base, c)
            && WithinReach(base, c, u.target, previous)
            // ...nothing of the fabric if its job was never created...
            && (Latest(store.log, Fabric) == Never ==> SameFabric(base, c))
            // ...and if verification failed, the fabric is back, but not its templates
            && (Latest(store.log, Fabric) == Ended(true) ==>
                  && FabricAt(c, previous)
                  && TemplateAt(c.clientTemplate, u.target) && TemplateAt(c.serverTemplate, u.target))
            && Latest(store.log, Fabric) != Live
  {
    Decisions.RunKeepsInv(u, w, steps);
    var store, base := End(u, w, steps), w.store.cluster;
    var previous := store.status.previousVersion;
    assert TrackOf(FactsOf(u, base, store), Fabric) != Live;
    hide WithinReach, SameWorkloads, CrdsAt;
    ReachKeepsWorkloads(base, store.cluster, u.target, Original(base));
    if base.manager.value[0].name == "controller-manager" {
      assert store.cluster.manager.value[0].name == base.manager.value[0].name by { SameNames(base, store.cluster); }
      assert store.cluster.manager.value[0].image == ManagerImage(previous);
      var repo := REGISTRY + "liqo-controller-manager";
      assert ManagerImage(previous) == repo + ":" + previous;
      Images.DetectUndoesPrint(repo, previous);
    }
  }

  lemma SameNames(c: Cluster, d: Cluster)
    requires SameWorkloads(c, d) && c.manager.Some?
    ensures d.manager.Some? && |d.manager.value| == |c.manager.value|
    ensures forall i :: 0 <= i < |c.manager.value| ==> d.manager.value[i].name == c.manager.value[i].name
  {
  }

  // ---------------------------------------------------------------- every image

  /** No other container has the first one's name: Kubernetes sees to that. */
  ghost predicate FirstNameIsUnique(w: Option<Workload>) {
    w.Some? ==> forall i :: 0 < i < |w.value| ==> w.value[i].name != w.value[0].name
  }

  ghost predicate UsualNames(c: Cluster) {
    && FirstNameIsUnique(c.manager)
    && (c.manager.Some? && |c.manager.value| > 0 ==> c.manager.value[0].name == "controller-manager")
    && FirstNameIsUnique(c.ipam) && FirstNameIsUnique(c.proxy) && FirstNameIsUnique(c.fabric)
  }

  /** Each component is where the controller put it, at one version. */
  ghost predicate InstalledAt(c: Cluster, version: string) {
    && (c.manager.Some? && |c.manager.value| > 0 ==> c.manager.value[0].image == ManagerImage(version))
    && (c.ipam.Some? && |c.ipam.value| > 0 ==> c.ipam.value[0].image == Image("ipam", version))
    && (c.proxy.Some? && |c.proxy.value| > 0 ==> c.proxy.value[0].image == Image("proxy", version))
    && (c.fabric.Some? && |c.fabric.value| > 0 ==> c.fabric.value[0].image == Image("fabric", version))
  }

  /** Setting an image that is there already. */
  lemma SettingTheSame(w: Workload, image: string)
    requires FirstNameIsUnique(Some(w)) && |w| > 0 && w[0].image == image
    ensures SetImage(w, w[0].name, image) == w == SetFirstImage(w, image)
  {
  }

  /** The first image tells which of the two versions a component was set to. */
  lemma FirstImagePinsComponent(base: Option<Workload>, now: Option<Workload>, component: string, target: string, previous: string)
    requires MaySet(base, now, component, target) || MaySet(base, now, component, previous)
    requires FirstNameIsUnique(base) && FirstImageIs(now, Image(component, previous))
    ensures now == ComponentSet(base, component, previous)
  {
    if base.Some? && now == base { SettingTheSame(base.value, Image(component, previous)); }
  }

  lemma FirstImagePinsManager(base: Option<Workload>, now: Option<Workload>, target: string, previous: string)
    requires MaySetManager(base, now, target) || MaySetManager(base, now, previous)
    requires FirstNameIsUnique(base) && base.Some? && |base.value| > 0 && base.value[0].name == "controller-manager"
    requires FirstImageIs(now, ManagerImage(previous))
    ensures now == ManagerSet(base, previous)
  {
    if now == base { SettingTheSame(base.value, ManagerImage(previous)); }
  }

  /** The part of WithinReach in which the two versions play the same role. */
  ghost predicate SetWithin(base: Cluster, c: Cluster, other: string, version: string) {
    && (MaySetManager(base.manager, c.manager, other) || MaySetManager(base.manager, c.manager, version))
    && (MaySet(base.ipam, c.ipam, "ipam", other) || MaySet(base.ipam, c.ipam, "ipam", version))
    && (MaySet(base.proxy, c.proxy, "proxy", other) || MaySet(base.proxy, c.proxy, "proxy", version))
    && (MaySet(base.fabric, c.fabric, "fabric", other) || MaySet(base.fabric, c.fabric, "fabric", version))
  }

  lemma ReachIsWithin(base: Cluster, c: Cluster, target: string, original: string)
    requires WithinReach(base, c, target, original)
    ensures SetWithin(base, c, target, original) && SetWithin(base, c, original, target)
  {
    hide MaySet, MaySetManager;
  }

  lemma ManagerIsPinned(base: Cluster, c: Cluster, target: string, previous: string)
    requires SetWithin(base, c, target, previous) && UsualNames(base) && ManagerAt(c, previous)
    ensures c.manager == ManagerSet(base.manager, previous)
  {
    FirstImagePinsManager(base.manager, c.manager, target, previous);
  }

  lemma FabricIsPinned(base: Cluster, c: Cluster, target: string, previous: string)
    requires SetWithin(base, c, target, previous) && UsualNames(base) && FabricAt(c, previous)
    ensures c.ipam == ComponentSet(base.ipam, "ipam", previous)
    ensures c.proxy == ComponentSet(base.proxy, "proxy", previous)
    ensures c.fabric == ComponentSet(base.fabric, "fabric", previous)
  {
    FirstImagePinsComponent(base.ipam, c.ipam, "ipam", target, previous);
    FirstImagePinsComponent(base.proxy, c.proxy, "proxy", target, previous);
    FirstImagePinsComponent(base.fabric, c.fabric, "fabric", target, previous);
  }

  lemma InstalledIsSet(base: Cluster, version: string)
    requires UsualNames(base) && InstalledAt(base, version)
    ensures ManagerSet(base.manager, version) == base.manager
    ensures ComponentSet(base.ipam, "ipam", version) == base.ipam
    ensures ComponentSet(base.proxy, "proxy", version) == base.proxy
    ensures ComponentSet(base.fabric, "fabric", version) == base.fabric
  {
    if base.manager.Some? && |base.manager.value| > 0 { SettingTheSame(base.manager.value, ManagerImage(version)); }
    if base.ipam.Some? && |base.ipam.value| > 0 { SettingTheSame(base.ipam.value, Image("ipam", version)); }
    if base.proxy.Some? && |base.proxy.value| > 0 { SettingTheSame(base.proxy.value, Image("proxy", version)); }
    if base.fabric.Some? && |base.fabric.value| > 0 { SettingTheSame(base.fabric.value, Image("fabric", version)); }
  }

  /** After a rollback the images of all containers are determined: those of the manager always,
      those of ipam, proxy and fabric unless the network-fabric job failed. */
  lemma RollbackFixesImages(u: Upgrade, w: World, steps: seq<Step>)
    requires Reachable(u, w, steps) && End(u, w, steps).status.rolledBack && UsualNames(w.store.cluster)
    ensures var store, base := End(u, w, steps), w.store.cluster;
            var c, previous := store.cluster, store.status.previousVersion;
            && c.manager == ManagerSet(base.manager, previous)
            && (match Latest(store.log, Fabric)
                case Never => SameFabric(base, c)
                case Ended(ok) => ok ==>
                  && c.ipam == ComponentSet(base.ipam, "ipam", previous)
                  && c.proxy == ComponentSet(base.proxy, "proxy", previous)
                  && c.fabric == ComponentSet(base.fabric, "fabric", previous)
                case Live => false)
  {
    var store, base := End(u, w, steps), w.store.cluster;
    var previous := store.status.previousVersion;
    RolledBackMeansRestored(u, w, steps);
    hide Run, WithinReach, UsualNames, ManagerAt, FabricAt;
    ReachIsWithin(base, store.cluster, u.target, previous);
    ManagerIsPinned(base, store.cluster, u.target, previous);
    if Latest(store.log, Fabric) == Ended(true) { FabricIsPinned(base, store.cluster, u.target, previous); }
  }

  /** If everything was at the previous version before, a rollback brings back the cluster of
      before, except for CRDs and, once the network-fabric job exists, gateway templates and
      gateways, and ipam, proxy and fabric if that job failed. */
  lemma RollbackRestoresTheRest(u: Upgrade, w: World, steps: seq<Step>)
    requires Reachable(u, w, steps) && End(u, w, steps).status.rolledBack
    requires UsualNames(w.store.cluster) && InstalledAt(w.store.cluster, End(u, w, steps).status.previousVersion)
    ensures var store, base := End(u, w, steps), w.store.cluster;
            var c := store.cluster;
            var restored := base.(crds := c.crds);
            var butTemplates := restored.(clientTemplate := c.clientTemplate, serverTemplate := c.serverTemplate,
                                          gateways := c.gateways);
            && (Latest(store.log, Crd) == Never == Latest(store.log, Fabric) ==> c == base)
            && (Latest(store.log, Fabric) == Never ==> c == restored)
            && (Latest(store.log, Fabric) == Ended(true) ==> c == butTemplates)
            && c == butTemplates.(ipam := c.ipam, proxy := c.proxy, fabric := c.fabric)
            && WithinReach(base, c, u.target, store.status.previousVersion)
  {
    var store, base := End(u, w, steps), w.store.cluster;
    RolledBackMeansRestored(u, w, steps);
    RollbackFixesImages(u, w, steps);
    UntouchedUntilItsStage(u, w, steps);
    InstalledIsSet(base, store.status.previousVersion);
    hide Run, WithinReach, UsualNames, InstalledAt, ManagerAt, FabricAt, ManagerSet, ComponentSet;
  }

  // ---------------------------------------------------------------- completion

  /** A template whose first image said nothing of the target has all three images replaced. */
  lemma TemplateIsPatched(base: Option<Template>, now: Option<Template>, target: string)
    requires MayPatch(base, now, target) && TemplateAt(now, target)
    requires base.Some? && |base.value| > 0 && !Strings.Contains(base.value[0], target) && base.value[0] != "not found"
    ensures now.Some? && |now.value| == |base.value| >= 3
    ensures now.value[0] == "ghcr.io/liqotech/gateway:" + target
    ensures now.value[1] == "ghcr.io/liqotech/gateway/wireguard:" + target
    ensures now.value[2] == "ghcr.io/liqotech/gateway/geneve:" + target
    ensures now.value[3..] == base.value[3..]
  {
    assert now == TemplatePatched(base, target) && now != base;
    assert REGISTRY + "gateway" + ":" == "ghcr.io/liqotech/gateway:";
    assert REGISTRY + "gateway/wireguard" + ":" == "ghcr.io/liqotech/gateway/wireguard:";
    assert REGISTRY + "gateway/geneve" + ":" == "ghcr.io/liqotech/gateway/geneve:";
  }

  lemma UsualManager(base: Cluster, c: Cluster, version: string)
    requires SameWorkloads(base, c) && UsualNames(base) && ManagerAt(c, version)
    ensures c.manager.value[0].name == "controller-manager"
  {
    SameNames(base, c);
  }

  lemma ImagesSpelledOut(c: Cluster, version: string)
    requires ManagerAt(c, version) && c.manager.value[0].name == "controller-manager" && FabricAt(c, version)
    ensures c.manager.Some? && FirstImageIs(c.manager, "ghcr.io/liqotech/" + "liqo-controller-manager" + ":" + version)
    ensures FirstImageIs(c.ipam, "ghcr.io/liqotech/" + "ipam" + ":" + version)
    ensures FirstImageIs(c.proxy, "ghcr.io/liqotech/" + "proxy" + ":" + version)
    ensures FirstImageIs(c.fabric, "ghcr.io/liqotech/" + "fabric" + ":" + version)
  {
  }

  /** The counterpart of RollbackFixesImages: in a completed upgrade the images of all containers are
      the original ones set to the target, unless a rollback was overlooked. */
  lemma CompletionFixesImages(u: Upgrade, w: World, steps: seq<Step>)
    requires Reachable(u, w, steps) && End(u, w, steps).status.phase.Completed?
    requires !RollbackWriteLost(End(u, w, steps).log) && UsualNames(w.store.cluster)
    ensures var base, c := w.store.cluster, End(u, w, steps).cluster;
            && c.manager == ManagerSet(base.manager, u.target)
            && c.ipam == ComponentSet(base.ipam, "ipam", u.target)
            && c.proxy == ComponentSet(base.proxy, "proxy", u.target)
            && c.fabric == ComponentSet(base.fabric, "fabric", u.target)
            && c.manager.Some? && FirstImageIs(c.manager, "ghcr.io/liqotech/" + "liqo-controller-manager" + ":" + u.target)
            && FirstImageIs(c.ipam, "ghcr.io/liqotech/" + "ipam" + ":" + u.target)
            && FirstImageIs(c.proxy, "ghcr.io/liqotech/" + "proxy" + ":" + u.target)
            && FirstImageIs(c.fabric, "ghcr.io/liqotech/" + "fabric" + ":" + u.target)
            && MayPatch(base.clientTemplate, c.clientTemplate, u.target) && TemplateAt(c.clientTemplate, u.target)
            && MayPatch(base.serverTemplate, c.serverTemplate, u.target) && TemplateAt(c.serverTemplate, u.target)
  {
    var base, c := w.store.cluster, End(u, w, steps).cluster;
    CompletedIsAtTarget(u, w, steps);
    UntouchedUntilItsStage(u, w, steps);
    hide Run, UsualNames, FabricAt, TemplateAt, SameWorkloads, MaySet, MaySetManager, MayPatch, RollbackWriteLost;
    ReachIsWithin(base, c, u.target, Original(base));
    hide WithinReach, SetWithin;
    ManagerIsPinned(base, c, Original(base), u.target);
    FabricIsPinned(base, c, Original(base), u.target);
    UsualManager(base, c, u.target);
    ImagesSpelledOut(c, u.target);
  }
}
