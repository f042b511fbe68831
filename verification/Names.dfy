// The jobs of an upgrade and their names (internal/controller/liqoupgrade_controller.go).
module Names {
  datatype Stage = Freeze | Crd | Manager | Fabric | Rollback

  const STAGES: seq<Stage> := [Freeze, Crd, Manager, Fabric, Rollback]

  function Prefix(stage: Stage): (r: string) {
    match stage
    case Freeze => "liqo-freeze-operations"
    case Crd => "liqo-upgrade-crd"
    case Manager => "liqo-upgrade-controller-manager"
    case Fabric => "liqo-upgrade-network-fabric"
    case Rollback => "liqo-rollback"
  }

  function JobName(stage: Stage, upgrade: string): (r: string) {
    Prefix(stage) + "-" + upgrade
  }

  /** A job in the cluster.  Stage and upgrade stand for the name they print:
      JobNamesAreInjective is what makes that sound. */
  datatype JobKey = JobKey(namespace: string, stage: Stage, upgrade: string)

  /** No two (stage, upgrade) pairs share a job name, whatever the upgrades are called. */
  lemma JobNamesAreInjective(s: Stage, m: string, t: Stage, n: string)
    requires JobName(s, m) == JobName(t, n)
    ensures s == t && m == n
  {
    var a, b := JobName(s, m), JobName(t, n);
    assert a[5] == Prefix(s)[5] && b[5] == Prefix(t)[5];
    if s in {Crd, Manager, Fabric} && t in {Crd, Manager, Fabric} {
      assert a[13] == Prefix(s)[13] && b[13] == Prefix(t)[13];
      assert a[14] == Prefix(s)[14] && b[14] == Prefix(t)[14];
    }
    assert s == t;
    assert m == a[|Prefix(s)| + 1..] && n == b[|Prefix(t)| + 1..];
  }
}
