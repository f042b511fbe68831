// The shell scripts of the jobs, as the controller builds them.  `set -e` turns any
// unguarded failing command into exit 1.  How the commands go is given as parameters,
// what other controllers do meanwhile is arbitrary.  `kubectl get` of an object that
// exists is taken to find it.
module Scripts {
  import opened Cluster
  import Images
  import Protocol
  import opened Strings
  import opened Wrappers

  // ---------------------------------------------------------------- commands

  /** How a command that changes the cluster goes: as an API call may go. */
  type Fault = Protocol.Fault

  /** kubectl set image on liqo-controller-manager, its rollout, and the wait for it. */
  datatype ManagerCommands = ManagerCommands(setting: Fault, rolledOut: bool, available: bool)

  /** kubectl set image on a fabric component; healthy stands for its rollout and all checks after it. */
  datatype ComponentCommands = ComponentCommands(setting: Fault, healthy: bool)

  /** A gateway deployment is set back; before are the gateways as other controllers left them by then. */
  datatype GatewayCommand = GatewayCommand(id: GatewayId, before: map<GatewayId, Workload>, setting: Fault)

  /** The gateways of the cluster at the three reads of the final check of one of them. */
  datatype GatewayReads = GatewayReads(first: map<GatewayId, Workload>, second: map<GatewayId, Workload>, third: map<GatewayId, Workload>)

  /** The commands of stage 3.  clients[i][j] tells whether the j-th GatewayClient listed for the i-th
      tenant can be annotated, and servers the same of GatewayServers. */
  datatype FabricCommands = FabricCommands(
    backedUp: bool, clientPatch: Fault, serverPatch: Fault,
    ipam: ComponentCommands, proxy: ComponentCommands, fabric: ComponentCommands,
    clients: seq<seq<bool>>, servers: seq<seq<bool>>,
    listed: seq<GatewayId>, views: seq<GatewayReads>, podsListed: bool)

  // ---------------------------------------------------------------- gateways

  /** The image of the container of that name, or nothing. */
  function ImageNamed(w: Workload, name: string): (r: string) {
    if |w| == 0 then "" else if w[0].name == name then w[0].image else ImageNamed(w[1..], name)
  }

  /** Each container is read by its own name, and a name that does not occur reads as nothing. */
  lemma {:induction false} ImageNamedIsThatContainers(w: Workload, name: string)
    requires forall i, j :: 0 <= i < j < |w| ==> w[i].name != w[j].name
    ensures forall i :: 0 <= i < |w| && w[i].name == name ==> ImageNamed(w, name) == w[i].image
    ensures (forall i :: 0 <= i < |w| ==> w[i].name != name) ==> ImageNamed(w, name) == ""
  {
    if |w| > 0 && w[0].name != name {
      var rest := w[1..];
      ImageNamedIsThatContainers(rest, name);
      forall i | 0 <= i < |w| && w[i].name == name ensures ImageNamed(w, name) == w[i].image {
        assert rest[i - 1] == w[i];
      }
      if forall i :: 0 <= i < |w| ==> w[i].name != name { assert forall i :: 0 <= i < |rest| ==> rest[i] == w[i + 1]; }
    }
  }

  const GATEWAY_CONTAINERS: seq<string> := ["gateway", "wireguard", "geneve"]

  /** What the final check asks of a gateway, container by container. */
  ghost predicate PassesCheck(id: GatewayId, views: GatewayReads, version: string) {
    && id in views.first && Contains(ImageNamed(views.first[id], "gateway"), version)
    && id in views.second && Contains(ImageNamed(views.second[id], "wireguard"), version)
    && id in views.third && Contains(ImageNamed(views.third[id], "geneve"), version)
  }

  /** At some moment from the given one on, the image of a gateway's container was seen to be the new one. */
  ghost predicate SeenUpdated(trail: seq<Cluster>, from: nat, id: GatewayId, name: string, version: string) {
    exists n :: from <= n < |trail| && id in trail[n].gateways
      && Contains(ImageNamed(trail[n].gateways[id], name), version)
  }

  ghost predicate AllSeenUpdated(trail: seq<Cluster>, from: nat, listed: seq<GatewayId>, version: string) {
    forall i, k :: 0 <= i < |listed| && 0 <= k < 3 ==> SeenUpdated(trail, from, listed[i], GATEWAY_CONTAINERS[k], version)
  }

  /** All containers of the three names have their image of the version. */
  ghost predicate GatewayAt(w: Workload, version: string) {
    forall i :: 0 <= i < |w| ==>
      && (w[i].name == "gateway" ==> w[i].image == Image("gateway", version))
      && (w[i].name == "wireguard" ==> w[i].image == Image("gateway/wireguard", version))
      && (w[i].name == "geneve" ==> w[i].image == Image("gateway/geneve", version))
  }

  ghost predicate SeenBack(trail: seq<Cluster>, from: nat, id: GatewayId, version: string) {
    exists n :: from <= n < |trail| && id in trail[n].gateways && GatewayAt(trail[n].gateways[id], version)
  }

  function SetGateway(w: Workload, version: string): (r: Workload) {
    SetImage(SetImage(SetImage(w, "gateway", Image("gateway", version)),
      "wireguard", Image("gateway/wireguard", version)), "geneve", Image("gateway/geneve", version))
  }

  lemma SettingGatewaySets(w: Workload, version: string)
    ensures GatewayAt(SetGateway(w, version), version)
  {
  }

  /** Stage 3 patches templates by position, and both scripts name gateway containers: the two agree.
      A gateway made from a patched template passes the final check, and setting its
      images by name to the same version changes nothing. */
  lemma PatchedTemplateMakesGoodGateway(t: Template, w: Workload, version: string)
    requires |t| == |w| >= 3
    requires forall i :: 0 <= i < |w| ==> w[i].image == PatchTemplate(t, version)[i]
    requires forall i :: 0 <= i < 3 ==> w[i].name == GATEWAY_CONTAINERS[i]
    requires forall i :: 3 <= i < |w| ==> w[i].name !in GATEWAY_CONTAINERS
    ensures GatewayAt(w, version) && SetGateway(w, version) == w
    ensures forall k :: 0 <= k < 3 ==> Contains(ImageNamed(w, GATEWAY_CONTAINERS[k]), version)
  {
    assert w[0].name == "gateway" && w[1].name == "wireguard" && w[2].name == "geneve";
    assert forall i :: 3 <= i < |w| ==> w[i].name != "gateway" && w[i].name != "wireguard" && w[i].name != "geneve" by {
      forall i | 3 <= i < |w| ensures w[i].name != "gateway" && w[i].name != "wireguard" && w[i].name != "geneve" {
        assert GATEWAY_CONTAINERS[0] == "gateway" && GATEWAY_CONTAINERS[1] == "wireguard" && GATEWAY_CONTAINERS[2] == "geneve";
      }
    }
    ImageNamedOfThree(w);
    SuffixIsContained(REGISTRY + "gateway" + ":", version);
    SuffixIsContained(REGISTRY + "gateway/wireguard" + ":", version);
    SuffixIsContained(REGISTRY + "gateway/geneve" + ":", version);
    hide ImageNamed, Contains;
  }

  lemma ImageNamedOfThree(w: Workload)
    requires |w| >= 3 && w[0].name == "gateway" && w[1].name == "wireguard" && w[2].name == "geneve"
    ensures ImageNamed(w, "gateway") == w[0].image
    ensures ImageNamed(w, "wireguard") == w[1].image
    ensures ImageNamed(w, "geneve") == w[2].image
  {
    assert w[1..][0] == w[1] && w[1..][1..][0] == w[2];
    assert ImageNamed(w, "geneve") == ImageNamed(w[1..], "geneve") == ImageNamed(w[1..][1..], "geneve");
  }

  /** What was seen once was seen for good. */
  lemma SeenStays(trail: seq<Cluster>, longer: seq<Cluster>, from: nat, id: GatewayId, name: string, version: string)
    requires trail <= longer
    ensures SeenUpdated(trail, from, id, name, version) ==> SeenUpdated(longer, from, id, name, version)
    ensures SeenBack(trail, from, id, version) ==> SeenBack(longer, from, id, version)
  {
    hide GatewayAt;
    assert forall n :: 0 <= n < |trail| ==> trail[n] == longer[n];
  }

  // ------------------------------------------------------- what commands come to

  /** The workload exists and has a container of that name. */
  ghost predicate HasNamed(w: Option<Workload>, name: string) {
    w.Some? && exists i :: 0 <= i < |w.value| && w.value[i].name == name
  }

  /** The rest of the script is reached after setting liqo-controller-manager. */
  ghost predicate ManagerGoes(w: Option<Workload>, cmds: ManagerCommands, version: string) {
    && HasNamed(w, "controller-manager")
    && cmds.setting.Fine? && cmds.rolledOut && cmds.available
    && Images.CutTag(ManagerSet(w, version).value[0].image) == version
  }

  /** An absent component is skipped; one without containers cannot be set. */
  ghost predicate ComponentGoes(w: Option<Workload>, cmds: ComponentCommands) {
    w.None? || (|w.value| > 0 && cmds.setting.Fine? && cmds.healthy)
  }

  ghost predicate FabricGoes(c: Cluster, ipam: ComponentCommands, proxy: ComponentCommands, fabric: ComponentCommands) {
    ComponentGoes(c.ipam, ipam) && ComponentGoes(c.proxy, proxy) && ComponentGoes(c.fabric, fabric)
  }

  ghost predicate AllTrue(lists: seq<seq<bool>>) {
    forall i, j :: 0 <= i < |lists| && 0 <= j < |lists[i]| ==> lists[i][j]
  }

  // ---------------------------------------------------------------- the script

  /** One after the other, only steps that the job may take. */
  ghost predicate Trace(job: JobSpec, trail: seq<Cluster>) {
    |trail| > 0 && forall i :: 0 <= i < |trail| - 1 ==> Work(job, trail[i], trail[i + 1])
  }

  lemma TraceGrows(job: JobSpec, trail: seq<Cluster>, d: Cluster)
    requires Trace(job, trail) && Work(job, trail[|trail| - 1], d)
    ensures Trace(job, trail + [d])
  {
    hide Work;
    var longer := trail + [d];
    forall i | 0 <= i < |longer| - 1 ensures Work(job, longer[i], longer[i + 1]) {
      assert longer[i] == trail[i];
      if i + 1 < |trail| { assert longer[i + 1] == trail[i + 1]; }
    }
  }

  /** The script of one job at work on the cluster. */
  class Script {
    const job: JobSpec
    var c: Cluster
    ghost var trail: seq<Cluster>   // the states the cluster went through

    constructor (job: JobSpec, c: Cluster)
      ensures this.job == job && this.c == c && trail == [c]
      ensures Valid()
    {
      this.job := job;
      this.c := c;
      this.trail := [c];
    }

    ghost predicate Valid()
      reads this
    {
      Trace(job, trail) && trail[|trail| - 1] == c
    }

    /** The only way to change the cluster. */
    method Change(d: Cluster)
      requires Valid() && Work(job, c, d)
      modifies this
      ensures Valid() && c == d && trail == old(trail) + [d]
    {
      TraceGrows(job, trail, d);
      c := d;
      trail := trail + [d];
    }

    // ------------------------------------------------------------ primitives

    /** Setting liqo-controller-manager, its rollout and wait, and the comparison of the deployed
        version: shared by stage 2 and rollback. */
    method SetManager(cmds: ManagerCommands) returns (ok: bool)
      requires Valid() && (job.stage.Manager? || job.stage.Rollback?)
      modifies this
      ensures Valid() && old(trail) <= trail
      ensures c == if HasNamed(old(c).manager, "controller-manager") && !cmds.setting.Refused? then
                     old(c).(manager := ManagerSet(old(c).manager, job.version))
                   else old(c)
      ensures ok <==> ManagerGoes(old(c).manager, cmds, job.version)
      ensures ok <==> && HasNamed(old(c).manager, "controller-manager")
                      && cmds.setting.Fine? && cmds.rolledOut && cmds.available
                      && Images.CutTag(c.manager.value[0].image) == job.version
      ensures ok ==> ManagerAt(c, job.version)
    {
      if c.manager.None? { return false; }
      var known := HasContainer(c.manager.value, "controller-manager");
      if !known { return false; }
      if !cmds.setting.Refused? { Change(c.(manager := ManagerSet(c.manager, job.version))); }
      if !cmds.setting.Fine? { return false; }
      if !cmds.rolledOut { return false; }
      if !cmds.available { return false; }
      var deployed := Images.CutTag(c.manager.value[0].image);
      if deployed != job.version { return false; }
      return true;
    }

    /** kubectl set image on the first container of a fabric component, then its rollout. */
    method SetComponent(w: Option<Workload>, component: string, cmds: ComponentCommands)
      returns (r: Option<Workload>, ok: bool)
      ensures r == if cmds.setting.Refused? then w else ComponentSet(w, component, job.version)
      ensures ok <==> ComponentGoes(w, cmds)
      ensures ok <==> w.None? || (|w.value| > 0 && cmds.setting.Fine? && cmds.healthy)
    {
      if w.None? { return w, true; }
      r, ok := w, false;
      if |w.value| == 0 { return; }
      if !cmds.setting.Refused? { r := Some(SetFirstImage(w.value, Image(component, job.version))); }
      ok := cmds.setting.Fine? && cmds.healthy;
    }

    /** liqo-ipam, liqo-proxy and liqo-fabric, in this order; stops at the first failure. */
    method SetFabric(ipam: ComponentCommands, proxy: ComponentCommands, fabric: ComponentCommands) returns (ok: bool)
      requires Valid() && (job.stage.Fabric? || (job.stage.Rollback? && FabricReached(job)))
      modifies this
      ensures Valid() && old(trail) <= trail
      ensures c == old(c).(ipam := c.ipam, proxy := c.proxy, fabric := c.fabric)
      ensures c.ipam == if ipam.setting.Refused? then old(c).ipam else ComponentSet(old(c).ipam, "ipam", job.version)
      ensures c.proxy == if !ComponentGoes(old(c).ipam, ipam) || proxy.setting.Refused? then old(c).proxy
                         else ComponentSet(old(c).proxy, "proxy", job.version)
      ensures c.fabric == if !ComponentGoes(old(c).ipam, ipam) || !ComponentGoes(old(c).proxy, proxy)
                             || fabric.setting.Refused? then old(c).fabric
                          else ComponentSet(old(c).fabric, "fabric", job.version)
      ensures ok <==> ComponentGoes(old(c).ipam, ipam) && ComponentGoes(old(c).proxy, proxy) && ComponentGoes(old(c).fabric, fabric)
      ensures ok ==> FabricAt(c, job.version)
    {
      var w;
      w, ok := SetComponent(c.ipam, "ipam", ipam);
      Change(c.(ipam := w));
      if !ok { return; }
      w, ok := SetComponent(c.proxy, "proxy", proxy);
      Change(c.(proxy := w));
      if !ok { return; }
      w, ok := SetComponent(c.fabric, "fabric", fabric);
      Change(c.(fabric := w));
    }

    /** The comparison of a template's first image. */
    method TemplateIsUpdated(t: Option<Template>) returns (ok: bool)
      ensures ok <==> TemplateAt(t, job.version)
      ensures ok <==> t.None? || |t.value| == 0 || Contains(t.value[0], job.version) || t.value[0] == "not found"
    {
      var image := if t.None? || |t.value| == 0 then "not found" else t.value[0];
      ok := Contains(image, job.version) || image == "not found";
    }

    /** Other controllers rewrite gateways beside the script. */
    method Wait()
      requires Valid() && (job.stage.Fabric? || (job.stage.Rollback? && FabricReached(job)))
      modifies this
      ensures Valid() && c == old(c).(gateways := c.gateways) && old(trail) <= trail
    {
      var gateways: map<GatewayId, Workload> := *;
      WaitUntil(gateways);
    }

    /** They leave these gateways. */
    method WaitUntil(gateways: map<GatewayId, Workload>)
      requires Valid() && (job.stage.Fabric? || (job.stage.Rollback? && FabricReached(job)))
      modifies this
      ensures Valid() && c == old(c).(gateways := gateways) && trail == old(trail) + [c]
    {
      Change(c.(gateways := gateways));
    }

    // ------------------------------------------------------------ stages 0 and 1

    method RunFreeze() returns (ok: bool)
      requires Valid() && job.stage.Freeze?
      ensures ok && Goal(job, c)
    {
      ok := true;
    }

    /** files is the CRD list fetched for the target version, outcomes[i] how files[i] is applied, and
        installed the number of Liqo CRDs counted at the end. */
    method RunCrd(files: seq<string>, outcomes: seq<Fault>, installed: nat) returns (ok: bool, succeeded: nat, failed: nat)
      requires Valid() && job.stage.Crd? && |outcomes| == |files|
      modifies this
      ensures Valid() && old(trail) <= trail
      ensures c == old(c).(crds := c.crds) && OnlyApplied(old(c).crds, c.crds, job.version)
      ensures succeeded == Fines(outcomes) && succeeded + failed == |files|
      ensures ok <==> |files| > 0 && (forall i :: 0 <= i < |files| ==> outcomes[i].Fine?) && installed >= 15
      ensures failed == 0 <==> forall i :: 0 <= i < |files| ==> outcomes[i].Fine?
      // a failure does not keep the rest from being applied
      ensures forall i :: 0 <= i < |files| && !outcomes[i].Refused? ==>
                files[i] in c.crds && c.crds[files[i]] == job.version
      ensures ok ==> Applied(c.crds, files, job.version) && Goal(job, c)
    {
      succeeded, failed := 0, 0;
      if |files| == 0 { return false, 0, 0; }
      for i := 0 to |files|
        invariant Valid() && old(trail) <= trail
        invariant c == old(c).(crds := c.crds) && OnlyApplied(old(c).crds, c.crds, job.version)
        invariant succeeded == Fines(outcomes[..i]) && succeeded + failed == i
        invariant forall j :: 0 <= j < i && !outcomes[j].Refused? ==> files[j] in c.crds && c.crds[files[j]] == job.version
        invariant failed == 0 <==> forall j :: 0 <= j < i ==> outcomes[j].Fine?
      {
        if !outcomes[i].Refused? { Change(c.(crds := c.crds[files[i] := job.version])); }
        if outcomes[i].Fine? {
          succeeded := succeeded + 1;
        } else {
          failed := failed + 1;
        }
        assert outcomes[..i + 1][..i] == outcomes[..i];
      }
      assert outcomes[..|files|] == outcomes;
      if failed > 0 { return false, succeeded, failed; }
      if installed < 15 { return false, succeeded, failed; }
      ok := true;
    }

    // ------------------------------------------------------------ stage 2

    /** saved tells whether the deployment could be copied first. */
    method RunManager(saved: bool, cmds: ManagerCommands) returns (ok: bool)
      requires Valid() && job.stage.Manager?
      modifies this
      ensures Valid() && old(trail) <= trail
      ensures ok <==> && saved && HasNamed(old(c).manager, "controller-manager")
                      && cmds.setting.Fine? && cmds.rolledOut && cmds.available
                      && Images.CutTag(ManagerSet(old(c).manager, job.version).value[0].image) == job.version
      ensures c == if saved && HasNamed(old(c).manager, "controller-manager") && !cmds.setting.Refused? then
                     old(c).(manager := ManagerSet(old(c).manager, job.version))
                   else old(c)
      ensures ok ==> Goal(job, c)
    {
      if !saved { return false; }
      ok := SetManager(cmds);
    }

    // ------------------------------------------------------------ stage 3

    /** kubectl patch ... && echo || echo: a failure is only reported.  Then the images are compared. */
    method UpgradeTemplates(client: Fault, server: Fault) returns (ok: bool)
      requires Valid() && job.stage.Fabric?
      modifies this
      ensures Valid() && old(trail) <= trail
      ensures c == old(c).(clientTemplate := c.clientTemplate, serverTemplate := c.serverTemplate)
      ensures c.clientTemplate == if client.Refused? then old(c).clientTemplate
                                  else TemplatePatched(old(c).clientTemplate, job.version)
      ensures c.serverTemplate == if server.Refused? then old(c).serverTemplate
                                  else TemplatePatched(old(c).serverTemplate, job.version)
      ensures ok <==> TemplateAt(c.clientTemplate, job.version) && TemplateAt(c.serverTemplate, job.version)
    {
      if c.clientTemplate.Some? && !client.Refused? {
        Change(c.(clientTemplate := Some(PatchTemplate(c.clientTemplate.value, job.version))));
      }
      if c.serverTemplate.Some? && !server.Refused? {
        Change(c.(serverTemplate := Some(PatchTemplate(c.serverTemplate.value, job.version))));
      }
      ok := TemplateIsUpdated(c.clientTemplate);
      if !ok { return; }
      ok := TemplateIsUpdated(c.serverTemplate);
    }

    /** The waits for one tenant, between and after which other controllers may act.  A wait
        that times out is only reported. */
    method WaitForTenant()
      requires Valid() && job.stage.Fabric?
      modifies this
      ensures Valid() && c == old(c).(gateways := c.gateways) && old(trail) <= trail
    {
      var sees: nat -> bool := *;
      var deleted: bool := *;
      if deleted { var _, _ := Poll(sees); }
      Wait();
      var deployments: seq<string> := *;
      for i := 0 to |deployments|
        invariant Valid() && c == old(c).(gateways := c.gateways) && old(trail) <= trail
      {
        sees := *;
        var _, _ := Poll(sees);
        Wait();
      }
    }

    /** The loop over the GatewayClients or GatewayServers of one tenant: the first that cannot be
        annotated ends the script. */
    method Annotate(annotated: seq<bool>) returns (ok: bool, count: nat)
      ensures ok <==> forall j :: 0 <= j < |annotated| ==> annotated[j]
      ensures ok ==> count == |annotated|
    {
      count := 0;
      for j := 0 to |annotated|
        invariant count == j
        invariant forall k :: 0 <= k < j ==> annotated[k]
      {
        count := count + 1;
        if !annotated[j] { return false, count; }
      }
      ok := true;
    }

    /** The loops over tenants: annotate GatewayClients and GatewayServers, delete their
        WireGuard resources, and wait for the gateways. */
    method RecreateGateways(clients: seq<seq<bool>>, servers: seq<seq<bool>>) returns (ok: bool, count: nat)
      requires Valid() && job.stage.Fabric? && |clients| == |servers|
      modifies this
      ensures Valid() && old(trail) <= trail && c == old(c).(gateways := c.gateways)
      ensures ok <==> && (forall i, j :: 0 <= i < |clients| && 0 <= j < |clients[i]| ==> clients[i][j])
                      && (forall i, j :: 0 <= i < |servers| && 0 <= j < |servers[i]| ==> servers[i][j])
      ensures ok ==> count == Total(clients) + Total(servers)
    {
      count := 0;
      for i := 0 to |clients|
        invariant Valid() && old(trail) <= trail && c == old(c).(gateways := c.gateways)
        invariant count == Total(clients[..i]) + Total(servers[..i])
        invariant forall k, j :: 0 <= k < i && 0 <= j < |clients[k]| ==> clients[k][j]
        invariant forall k, j :: 0 <= k < i && 0 <= j < |servers[k]| ==> servers[k][j]
      {
        var n;
        ok, n := Annotate(clients[i]);
        if !ok { return false, count + n; }
        count := count + n;
        ok, n := Annotate(servers[i]);
        if !ok { return false, count + n; }
        count := count + n;
        WaitForTenant();
        TotalGrows(clients, i);
        TotalGrows(servers, i);
      }
      assert clients[..|clients|] == clients && servers[..|servers|] == servers;
      ok := true;
    }

    /** The final check of ipam, proxy and fabric. */
    method ComponentIsUpdated(w: Option<Workload>) returns (ok: bool)
      ensures ok <==> w.None? || (|w.value| > 0 && Contains(w.value[0].image, job.version))
    {
      if w.None? { return true; }
      if |w.value| == 0 { return false; }
      ok := Contains(w.value[0].image, job.version);
    }

    /** Reads the image of a gateway's container; fails if the deployment is gone by now. */
    method ReadGateway(id: GatewayId, name: string, now: map<GatewayId, Workload>) returns (ok: bool, image: string)
      requires Valid() && job.stage.Fabric?
      modifies this
      ensures Valid() && old(trail) <= trail && c == old(c).(gateways := now)
      ensures ok <==> id in now
      ensures ok ==> image == ImageNamed(now[id], name)
      ensures ok && Contains(image, job.version) ==> SeenUpdated(trail, |old(trail)| - 1, id, name, job.version)
    {
      WaitUntil(now);
      if id !in c.gateways { return false, ""; }
      ok, image := true, ImageNamed(c.gateways[id], name);
      assert trail[|trail| - 1] == c;
    }

    /** The final check of one gateway: three reads, and then the comparison. */
    method GatewayIsUpdated(id: GatewayId, views: GatewayReads) returns (ok: bool)
      requires Valid() && job.stage.Fabric?
      modifies this
      ensures Valid() && old(trail) <= trail && c == old(c).(gateways := c.gateways)
      ensures ok <==> PassesCheck(id, views, job.version)
      ensures ok <==> && id in views.first && Contains(ImageNamed(views.first[id], "gateway"), job.version)
                      && id in views.second && Contains(ImageNamed(views.second[id], "wireguard"), job.version)
                      && id in views.third && Contains(ImageNamed(views.third[id], "geneve"), job.version)
      ensures ok ==> AllSeenUpdated(trail, |old(trail)| - 1, [id], job.version)
    {
      hide SeenUpdated;
      var gateway, wireguard, geneve;
      ok, gateway := ReadGateway(id, "gateway", views.first);
      if !ok { return; }
      ghost var trail1, from1 := trail, |trail| - 1;
      ok, wireguard := ReadGateway(id, "wireguard", views.second);
      if !ok { return; }
      ghost var trail2, from2 := trail, |trail| - 1;
      ok, geneve := ReadGateway(id, "geneve", views.third);
      if !ok { return; }
      ok := Contains(gateway, job.version) && Contains(wireguard, job.version) && Contains(geneve, job.version);
      if ok {
        SeenStays(trail1, trail, |old(trail)| - 1, id, "gateway", job.version);
        SeenStays(trail2, trail, from1, id, "wireguard", job.version);
        SeenSince(trail, |old(trail)| - 1, from1, id, "wireguard", job.version);
        SeenSince(trail, |old(trail)| - 1, from2, id, "geneve", job.version);
      }
    }

    /** The final check of the gateways of all tenants. */
    method GatewaysAreUpdated(listed: seq<GatewayId>, views: seq<GatewayReads>) returns (ok: bool)
      requires Valid() && job.stage.Fabric? && |listed| == |views|
      modifies this
      ensures Valid() && old(trail) <= trail && c == old(c).(gateways := c.gateways)
      ensures ok <==> forall i :: 0 <= i < |listed| ==> PassesCheck(listed[i], views[i], job.version)
      ensures ok ==> AllSeenUpdated(trail, |old(trail)| - 1, listed, job.version)
    {
      hide SeenUpdated, PassesCheck;
      for i := 0 to |listed|
        invariant Valid() && old(trail) <= trail && c == old(c).(gateways := c.gateways)
        invariant forall j :: 0 <= j < i ==> PassesCheck(listed[j], views[j], job.version)
        invariant AllSeenUpdated(trail, |old(trail)| - 1, listed[..i], job.version)
      {
        ghost var before := trail;
        ok := GatewayIsUpdated(listed[i], views[i]);
        if !ok { return; }
        AllSeenGrows(before, trail, |old(trail)| - 1, listed[..i], listed[i], job.version);
        assert listed[..i] + [listed[i]] == listed[..i + 1];
      }
      assert listed[..|listed|] == listed;
      ok := true;
    }

    /** The final check of all components, after the waits. */
    method FinalCheck(listed: seq<GatewayId>, views: seq<GatewayReads>) returns (ok: bool)
      requires Valid() && job.stage.Fabric? && |listed| == |views| && FabricAt(c, job.version)
      modifies this
      ensures Valid() && old(trail) <= trail && c == old(c).(gateways := c.gateways)
      ensures ok <==> forall i :: 0 <= i < |listed| ==> PassesCheck(listed[i], views[i], job.version)
      ensures ok ==> AllSeenUpdated(trail, |old(trail)| - 1, listed, job.version)
    {
      hide SeenUpdated, PassesCheck, AllSeenUpdated;
      SetComponentsPass(c, job.version);
      ok := ComponentIsUpdated(c.ipam);
      if !ok { return; }
      ok := ComponentIsUpdated(c.proxy);
      if !ok { return; }
      ok := ComponentIsUpdated(c.fabric);
      if !ok { return; }
      ok := GatewaysAreUpdated(listed, views);
    }

    /** Stage 3. */
    method RunFabric(cmds: FabricCommands) returns (ok: bool)
      requires Valid() && job.stage.Fabric?
      requires |cmds.clients| == |cmds.servers| && |cmds.listed| == |cmds.views|
      modifies this
      ensures Valid() && old(trail) <= trail
      ensures ok <==>
                && cmds.backedUp
                && TemplateAt(if cmds.clientPatch.Refused? then old(c).clientTemplate
                              else TemplatePatched(old(c).clientTemplate, job.version), job.version)
                && TemplateAt(if cmds.serverPatch.Refused? then old(c).serverTemplate
                              else TemplatePatched(old(c).serverTemplate, job.version), job.version)
                && FabricGoes(old(c), cmds.ipam, cmds.proxy, cmds.fabric)
                && AllTrue(cmds.clients) && AllTrue(cmds.servers)
                && (forall i :: 0 <= i < |cmds.listed| ==> PassesCheck(cmds.listed[i], cmds.views[i], job.version))
                && cmds.podsListed
      ensures ok ==> Goal(job, c)
      ensures ok ==> AllSeenUpdated(trail, |old(trail)| - 1, cmds.listed, job.version)
    {
      hide SeenUpdated, PassesCheck, ComponentGoes, TemplateAt, FabricAt;
      if !cmds.backedUp { return false; }
      ok := UpgradeTemplates(cmds.clientPatch, cmds.serverPatch);
      if !ok { return; }
      ok := SetFabric(cmds.ipam, cmds.proxy, cmds.fabric);
      if !ok { return; }
      ghost var settled := c;
      var count;
      ok, count := RecreateGateways(cmds.clients, cmds.servers);
      if !ok { return; }
      Wait();
      ghost var from := |trail| - 1;
      SameComponentsAreThere(settled, c, job.version);
      ok := FinalCheck(cmds.listed, cmds.views);
      if !ok { return; }
      AllSeenSince(trail, |old(trail)| - 1, from, cmds.listed, job.version);
      SameComponentsAreThere(settled, c, job.version);
      ok := cmds.podsListed;
    }

    // ------------------------------------------------------------ rollback

    /** The loop over the WgGatewayClients or WgGatewayServers of one tenant: a failing patch is
        only reported, and one that works makes another controller rewrite gateways. */
    method PatchWgGateways(names: seq<string>) returns (count: nat)
      requires Valid() && job.stage.Rollback? && FabricReached(job)
      modifies this
      ensures Valid() && old(trail) <= trail && c == old(c).(gateways := c.gateways)
      ensures count == |names|
    {
      count := 0;
      for i := 0 to |names|
        invariant Valid() && old(trail) <= trail && c == old(c).(gateways := c.gateways)
        invariant count == i
      {
        count := count + 1;
        Wait();
      }
    }

    /** The loop over the gateway deployments of one tenant: a failure is only reported.  restored
        are those that kubectl reported to be set: each had its previous images then,
        whatever came later. */
    method RestoreDeployments(gateways: seq<GatewayCommand>) returns (restored: set<GatewayId>)
      requires Valid() && job.stage.Rollback? && FabricReached(job)
      modifies this
      ensures Valid() && old(trail) <= trail && c == old(c).(gateways := c.gateways)
      ensures restored == set g | g in gateways && g.setting.Fine? && g.id in g.before :: g.id
      ensures forall id :: id in restored ==> SeenBack(trail, |old(trail)| - 1, id, job.version)
    {
      hide SeenBack;
      restored := {};
      for i := 0 to |gateways|
        invariant Valid() && old(trail) <= trail && c == old(c).(gateways := c.gateways)
        invariant restored == set g | g in gateways[..i] && g.setting.Fine? && g.id in g.before :: g.id
        invariant forall id :: id in restored ==> SeenBack(trail, |old(trail)| - 1, id, job.version)
      {
        var g := gateways[i];
        ghost var before, earlier := trail, restored;
        WaitUntil(g.before);
        if g.id in c.gateways && !g.setting.Refused? { SetBack(g.id); }
        if g.id in g.before && g.setting.Fine? { restored := restored + {g.id}; }
        forall other | other in earlier ensures SeenBack(trail, |old(trail)| - 1, other, job.version) {
          SeenStays(before, trail, |old(trail)| - 1, other, "", job.version);
        }
        assert gateways[..i + 1] == gateways[..i] + [g];
      }
      assert gateways[..|gateways|] == gateways;
    }

    /** kubectl set image on a gateway deployment. */
    method SetBack(id: GatewayId)
      requires Valid() && job.stage.Rollback? && FabricReached(job) && id in c.gateways
      modifies this
      ensures Valid() && old(trail) <= trail
      ensures c == old(c).(gateways := old(c).gateways[id := SetGateway(old(c).gateways[id], job.version)])
      ensures forall from :: 0 <= from <= |old(trail)| ==> SeenBack(trail, from, id, job.version)
    {
      SettingGatewaySets(c.gateways[id], job.version);
      Change(c.(gateways := c.gateways[id := SetGateway(c.gateways[id], job.version)]));
      assert trail[|trail| - 1] == c;
    }

    /** The loops over tenants of the rollback: WireGuard resources are counted and patched,
        then gateway deployments set back.  Entry i of each list is for the i-th tenant. */
    method RestoreGateways(clients: seq<seq<string>>, servers: seq<seq<string>>, gateways: seq<seq<GatewayCommand>>)
      returns (count: nat, restored: set<GatewayId>)
      requires Valid() && job.stage.Rollback? && FabricReached(job)
      requires |clients| == |servers| == |gateways|
      modifies this
      ensures Valid() && old(trail) <= trail && c == old(c).(gateways := c.gateways)
      ensures count == Total(clients) + Total(servers)
      ensures forall id :: id in restored <==> IsRestored(gateways, id)
      ensures forall id :: id in restored ==> SeenBack(trail, |old(trail)| - 1, id, job.version)
    {
      hide SeenBack;
      count, restored := 0, {};
      for i := 0 to |clients|
        invariant Valid() && old(trail) <= trail && c == old(c).(gateways := c.gateways)
        invariant count == Total(clients[..i]) + Total(servers[..i])
        invariant forall id :: id in restored <==> IsRestored(gateways[..i], id)
        invariant forall id :: id in restored ==> SeenBack(trail, |old(trail)| - 1, id, job.version)
      {
        ghost var before := trail;
        var n := PatchWgGateways(clients[i]);
        count := count + n;
        n := PatchWgGateways(servers[i]);
        count := count + n;
        ghost var from := |trail| - 1;
        var more := RestoreDeployments(gateways[i]);
        forall id ensures id in restored || id in more ==> SeenBack(trail, |old(trail)| - 1, id, job.version) {
          SeenStays(before, trail, |old(trail)| - 1, id, "", job.version);
          SeenBackSince(trail, |old(trail)| - 1, from, id, job.version);
        }
        forall id { RestoredGrows(gateways, i, id); }
        restored := restored + more;
        TotalGrows(clients, i);
        TotalGrows(servers, i);
      }
      assert clients[..|clients|] == clients && servers[..|servers|] == servers && gateways[..|gateways|] == gateways;
    }

    /** copied tells whether the backup, if found, could be copied. */
    method RunRollback(copied: bool, manager: ManagerCommands, clients: seq<seq<string>>, servers: seq<seq<string>>,
                       gateways: seq<seq<GatewayCommand>>,
                       ipam: ComponentCommands, proxy: ComponentCommands, fabric: ComponentCommands)
      returns (ok: bool, count: nat, restored: set<GatewayId>)
      requires Valid() && job.stage.Rollback?
      requires |clients| == |servers| == |gateways|
      modifies this
      ensures Valid() && old(trail) <= trail
      ensures ok <==> && copied && ManagerGoes(old(c).manager, manager, job.version)
                      && (FabricReached(job) ==> FabricGoes(old(c), ipam, proxy, fabric))
      ensures ok ==> Goal(job, c)
      ensures c.crds == old(c).crds
      ensures c.clientTemplate == old(c).clientTemplate && c.serverTemplate == old(c).serverTemplate
      ensures !(copied && FabricReached(job) && ManagerGoes(old(c).manager, manager, job.version)) ==>
                c == old(c).(manager := c.manager) && restored == {} && count == 0
      ensures copied && FabricReached(job) && ManagerGoes(old(c).manager, manager, job.version) ==>
                && count == Total(clients) + Total(servers)
                && (forall id :: id in restored <==> IsRestored(gateways, id))
      ensures forall id :: id in restored ==> SeenBack(trail, |old(trail)| - 1, id, job.version)
    {
      hide SeenBack, ManagerGoes, HasNamed, FabricAt, ManagerAt, IsRestored;
      count, restored := 0, {};
      if !copied { return false, 0, {}; }
      ok := SetManager(manager);
      if !ok { return; }
      if FabricReached(job) {
        ghost var from := |trail| - 1;
        ghost var managed := c;
        count, restored := RestoreGateways(clients, servers, gateways);
        SameManagerIsThere(managed, c, job.version);
        ghost var middle, settled := trail, c;
        ok := SetFabric(ipam, proxy, fabric);
        forall id ensures SeenBack(middle, from, id, job.version) ==> SeenBack(trail, |old(trail)| - 1, id, job.version) {
          SeenStays(middle, trail, from, id, "", job.version);
          SeenBackSince(trail, |old(trail)| - 1, from, id, job.version);
        }
        SameManagerIsThere(settled, c, job.version);
      }
    }
  }

  // ---------------------------------------------------------------- lemmas

  /** Some tenant's gateway was there and kubectl reported it to be set. */
  ghost predicate IsRestored(gateways: seq<seq<GatewayCommand>>, id: GatewayId) {
    exists i, j :: 0 <= i < |gateways| && 0 <= j < |gateways[i]|
      && gateways[i][j].id == id && gateways[i][j].setting.Fine? && id in gateways[i][j].before
  }

  lemma RestoredGrows(gateways: seq<seq<GatewayCommand>>, i: nat, id: GatewayId)
    requires i < |gateways|
    ensures IsRestored(gateways[..i + 1], id)
       <==> IsRestored(gateways[..i], id) || id in (set g | g in gateways[i] && g.setting.Fine? && g.id in g.before :: g.id)
  {
    var front, longer := gateways[..i], gateways[..i + 1];
    if IsRestored(front, id) {
      var k, j :| 0 <= k < |front| && 0 <= j < |front[k]|
        && front[k][j].id == id && front[k][j].setting.Fine? && id in front[k][j].before;
      assert longer[k] == front[k];
    }
    if g :| g in gateways[i] && g.setting.Fine? && g.id in g.before && g.id == id {
      var j :| 0 <= j < |gateways[i]| && gateways[i][j] == g;
      assert longer[i][j].id == id;
    }
    if IsRestored(longer, id) {
      var k, j :| 0 <= k < |longer| && 0 <= j < |longer[k]|
        && longer[k][j].id == id && longer[k][j].setting.Fine? && id in longer[k][j].before;
      if k < i { assert front[k][j].id == id; }
    }
  }

  lemma SetComponentsPass(c: Cluster, version: string)
    requires FabricAt(c, version)
    ensures c.ipam.Some? ==> |c.ipam.value| > 0 && Contains(c.ipam.value[0].image, version)
    ensures c.proxy.Some? ==> |c.proxy.value| > 0 && Contains(c.proxy.value[0].image, version)
    ensures c.fabric.Some? ==> |c.fabric.value| > 0 && Contains(c.fabric.value[0].image, version)
  {
    SuffixIsContained(REGISTRY + "ipam" + ":", version);
    SuffixIsContained(REGISTRY + "proxy" + ":", version);
    SuffixIsContained(REGISTRY + "fabric" + ":", version);
    hide Contains;
  }

  lemma SameComponentsAreThere(c: Cluster, d: Cluster, version: string)
    requires c.ipam == d.ipam && c.proxy == d.proxy && c.fabric == d.fabric
    ensures FabricAt(c, version) <==> FabricAt(d, version)
  {
  }

  lemma SameManagerIsThere(c: Cluster, d: Cluster, version: string)
    requires c.manager == d.manager
    ensures ManagerAt(c, version) <==> ManagerAt(d, version)
  {
  }

  /** What was seen from a later moment on was seen from an earlier one on. */
  lemma SeenSince(trail: seq<Cluster>, from: nat, later: nat, id: GatewayId, name: string, version: string)
    requires from <= later
    ensures SeenUpdated(trail, later, id, name, version) ==> SeenUpdated(trail, from, id, name, version)
  {
  }

  lemma SeenBackSince(trail: seq<Cluster>, from: nat, later: nat, id: GatewayId, version: string)
    requires from <= later
    ensures SeenBack(trail, later, id, version) ==> SeenBack(trail, from, id, version)
  {
    hide GatewayAt;
  }

  lemma AllSeenSince(trail: seq<Cluster>, from: nat, later: nat, listed: seq<GatewayId>, version: string)
    requires from <= later && AllSeenUpdated(trail, later, listed, version)
    ensures AllSeenUpdated(trail, from, listed, version)
  {
    hide SeenUpdated;
    forall i, k | 0 <= i < |listed| && 0 <= k < 3
      ensures SeenUpdated(trail, from, listed[i], GATEWAY_CONTAINERS[k], version)
    {
      SeenSince(trail, from, later, listed[i], GATEWAY_CONTAINERS[k], version);
    }
  }

  lemma AllSeenGrows(trail: seq<Cluster>, longer: seq<Cluster>, from: nat, listed: seq<GatewayId>, id: GatewayId,
                     version: string)
    requires trail <= longer && from <= |trail| - 1
    requires AllSeenUpdated(trail, from, listed, version) && AllSeenUpdated(longer, |trail| - 1, [id], version)
    ensures AllSeenUpdated(longer, from, listed + [id], version)
  {
    hide SeenUpdated;
    AllSeenSince(longer, from, |trail| - 1, [id], version);
    var all := listed + [id];
    forall i, k | 0 <= i < |all| && 0 <= k < 3
      ensures SeenUpdated(longer, from, all[i], GATEWAY_CONTAINERS[k], version)
    {
      if i < |listed| {
        SeenStays(trail, longer, from, listed[i], GATEWAY_CONTAINERS[k], version);
      } else {
        assert [id][0] == all[i];
      }
    }
  }

  function HasContainer(w: Workload, name: string): (r: bool) {
    exists i :: 0 <= i < |w| && w[i].name == name
  }

  /** The number of commands that went well. */
  function Fines(outcomes: seq<Fault>): (n: nat) {
    if |outcomes| == 0 then 0 else Fines(outcomes[..|outcomes| - 1]) + if outcomes[|outcomes| - 1].Fine? then 1 else 0
  }

  function Total<T>(lists: seq<seq<T>>): (n: nat) {
    if |lists| == 0 then 0 else Total(lists[..|lists| - 1]) + |lists[|lists| - 1]|
  }

  lemma TotalGrows<T>(lists: seq<seq<T>>, i: nat)
    requires i < |lists|
    ensures Total(lists[..i + 1]) == Total(lists[..i]) + |lists[i]|
  {
    assert lists[..i + 1][..i] == lists[..i];
  }

  // ---------------------------------------------------------------- polling

  const TIMEOUT := 60

  /** The poll loops of stage 3: at most 30 polls, two seconds apart, with a warning
      exactly if none of them saw the condition.  sees(i) is what the i-th poll sees. */
  method Poll(sees: nat -> bool) returns (polls: nat, warned: bool)
    ensures polls <= 30
    ensures warned <==> forall i: nat :: i < 30 ==> !sees(i)
    ensures !warned ==> 0 < polls && sees(polls - 1)
    ensures forall i: nat :: i < polls - 1 ==> !sees(i)
  {
    var elapsed := 0;
    polls := 0;
    while elapsed < TIMEOUT
      invariant elapsed == 2 * polls && polls <= 30
      invariant forall i: nat :: i < polls ==> !sees(i)
    {
      polls := polls + 1;
      if sees(polls - 1) { break; }
      elapsed := elapsed + 2;
    }
    warned := elapsed >= TIMEOUT;
  }
}
