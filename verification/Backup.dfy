// The ConfigMap that backs up the environment of liqo-controller-manager
// (backupEnvironmentConfig in internal/controller/validation.go).
module Backup {
  import opened Strings

  datatype EnvVar = EnvVar(name: string, value: string, hasValueFrom: bool)

  datatype Settings = Settings(env: seq<EnvVar>, args: seq<string>, command: seq<string>)

  datatype Container = Container(name: string, image: string, settings: Settings)

  type Data = map<string, string>

  function EnvKey(container: string, variable: string): (r: string) {
    container + "_" + variable
  }

  function WithVariable(data: Data, container: string, e: EnvVar): (r: Data) {
    if e.value != "" then data[EnvKey(container, e.name) := e.value]
    else if e.hasValueFrom then data[EnvKey(container, e.name) + "_type" := "valueFrom"]
    else data
  }

  function WithVariables(data: Data, container: string, env: seq<EnvVar>): (r: Data) {
    if |env| == 0 then data
    else WithVariable(WithVariables(data, container, env[..|env| - 1]), container, env[|env| - 1])
  }

  function WithContainer(data: Data, c: Container): (r: Data) {
    var d0 := WithVariables(data, c.name, c.settings.env);
    var d1 := if |c.settings.args| > 0 then d0[c.name + "_args" := Join(c.settings.args, ' ')] else d0;
    if |c.settings.command| > 0 then d1[c.name + "_command" := Join(c.settings.command, ' ')] else d1
  }

  /** The contents of the ConfigMap. */
  function BackupOf(containers: seq<Container>): (r: Data) {
    if |containers| == 0 then map[]
    else WithContainer(BackupOf(containers[..|containers| - 1]), containers[|containers| - 1])
  }

  method CollectEnvironment(containers: seq<Container>) returns (envData: Data)
    ensures envData == BackupOf(containers)
  {
    envData := map[];
    for i := 0 to |containers|
      invariant envData == BackupOf(containers[..i])
    {
      var c := containers[i];
      var env := c.settings.env;
      ghost var before := envData;
      for j := 0 to |env|
        invariant envData == WithVariables(before, c.name, env[..j])
      {
        var key := c.name + "_" + env[j].name;
        assert env[..j + 1][..j] == env[..j];
        if env[j].value != "" {
          envData := envData[key := env[j].value];
        } else if env[j].hasValueFrom {
          envData := envData[key + "_type" := "valueFrom"];
        }
      }
      assert env[..|env|] == env;
      if |c.settings.args| > 0 {
        envData := envData[c.name + "_args" := Join(c.settings.args, ' ')];
      }
      if |c.settings.command| > 0 {
        envData := envData[c.name + "_command" := Join(c.settings.command, ' ')];
      }
      assert containers[..i + 1][..i] == containers[..i];
    }
    assert containers[..|containers|] == containers;
  }

  // ------------------------------------------------------------ what is kept

  /** The value that a variable ends up with: Kubernetes lets the last definition win. */
  function LastLiteral(env: seq<EnvVar>, variable: string): (r: string) {
    if |env| == 0 then ""
    else
      var e := env[|env| - 1];
      if e.name == variable && e.value != "" then e.value else LastLiteral(env[..|env| - 1], variable)
  }

  /** Nothing the collector stores under another heading gets in the way of a variable's key. */
  predicate NoClash(c: Container) {
    && '_' !in c.name
    && (forall i :: 0 <= i < |c.settings.env| ==> c.settings.env[i].name !in {"args", "command"})
    && (forall i, j :: 0 <= i < |c.settings.env| && 0 <= j < |c.settings.env| && c.settings.env[i].value == ""
          && c.settings.env[i].hasValueFrom
          ==> c.settings.env[j].name != c.settings.env[i].name + "_type")
  }

  /** Container names are DNS labels, so a key determines its container and its variable. */
  lemma {:induction false} KeysAreInjective(c: string, x: string, d: string, y: string)
    requires '_' !in c && '_' !in d
    requires EnvKey(c, x) == EnvKey(d, y)
    ensures c == d && x == y
  {
    SplitOfConcat(c, x, '_');
    SplitOfConcat(d, y, '_');
    SplitOfAtom(c, '_');
    SplitOfAtom(d, '_');
    assert ([c] + Split(x, '_'))[0] == c && ([d] + Split(y, '_'))[0] == d;
    assert x == EnvKey(c, x)[|c| + 1..] && y == EnvKey(d, y)[|d| + 1..];
  }

  lemma TypeKeyIsAVariableKey(container: string, variable: string)
    ensures EnvKey(container, variable) + "_type" == EnvKey(container, variable + "_type")
  {
  }

  lemma {:induction false} OwnVariables(data: Data, c: Container, n: nat, variable: string)
    requires n <= |c.settings.env| && NoClash(c)
    requires exists i :: 0 <= i < |c.settings.env| && c.settings.env[i].name == variable
    ensures var key, last := EnvKey(c.name, variable), LastLiteral(c.settings.env[..n], variable);
            var after := WithVariables(data, c.name, c.settings.env[..n]);
            if last == "" then (key in after <==> key in data) && (key in data ==> after[key] == data[key])
            else key in after && after[key] == last
  {
    if n > 0 {
      OwnVariables(data, c, n - 1, variable);
      var e := c.settings.env[n - 1];
      assert c.settings.env[..n][..n - 1] == c.settings.env[..n - 1];
      TypeKeyIsAVariableKey(c.name, e.name);
      if EnvKey(c.name, e.name) == EnvKey(c.name, variable) {
        KeysAreInjective(c.name, e.name, c.name, variable);
      }
      if EnvKey(c.name, e.name + "_type") == EnvKey(c.name, variable) {
        KeysAreInjective(c.name, e.name + "_type", c.name, variable);
      }
    }
  }

  lemma {:induction false} ForeignVariables(data: Data, c: Container, n: nat, other: string, variable: string)
    requires n <= |c.settings.env| && '_' !in c.name && '_' !in other && other != c.name
    ensures var key, after := EnvKey(other, variable), WithVariables(data, c.name, c.settings.env[..n]);
            (key in after <==> key in data) && (key in data ==> after[key] == data[key])
  {
    if n > 0 {
      ForeignVariables(data, c, n - 1, other, variable);
      var e := c.settings.env[n - 1];
      assert c.settings.env[..n][..n - 1] == c.settings.env[..n - 1];
      TypeKeyIsAVariableKey(c.name, e.name);
      if EnvKey(c.name, e.name) == EnvKey(other, variable) {
        KeysAreInjective(c.name, e.name, other, variable);
      }
      if EnvKey(c.name, e.name + "_type") == EnvKey(other, variable) {
        KeysAreInjective(c.name, e.name + "_type", other, variable);
      }
    }
  }

  lemma HeadingsDoNotClash(c: Container, other: string, variable: string)
    requires '_' !in c.name && '_' !in other
    requires other != c.name || variable !in {"args", "command"}
    ensures EnvKey(other, variable) != c.name + "_args"
    ensures EnvKey(other, variable) != c.name + "_command"
  {
    assert c.name + "_args" == EnvKey(c.name, "args");
    assert c.name + "_command" == EnvKey(c.name, "command");
    if EnvKey(other, variable) == EnvKey(c.name, "args") { KeysAreInjective(other, variable, c.name, "args"); }
    if EnvKey(other, variable) == EnvKey(c.name, "command") { KeysAreInjective(other, variable, c.name, "command"); }
  }

  predicate DistinctNames(containers: seq<Container>) {
    forall i, j :: 0 <= i < j < |containers| ==> containers[i].name != containers[j].name
  }

  /** The backup holds the last non-empty literal value of every variable of every container. */
  lemma {:induction false} BackupKeepsLiterals(containers: seq<Container>, i: nat, variable: string)
    requires i < |containers| && DistinctNames(containers)
    requires forall j :: 0 <= j < |containers| ==> NoClash(containers[j])
    requires LastLiteral(containers[i].settings.env, variable) != ""
    ensures var key := containers[i].name + "_" + variable;
            && key in BackupOf(containers)
            && BackupOf(containers)[key] == LastLiteral(containers[i].settings.env, variable)
  {
    var n := |containers| - 1;
    var c, before := containers[n], BackupOf(containers[..n]);
    assert c.settings.env[..|c.settings.env|] == c.settings.env;
    if i == n {
      DefinedVariableOccurs(c.settings.env, variable);
      OwnVariables(before, c, |c.settings.env|, variable);
    } else {
      BackupKeepsLiterals(containers[..n], i, variable);
      ForeignVariables(before, c, |c.settings.env|, containers[i].name, variable);
    }
    HeadingsDoNotClash(c, containers[i].name, variable);
    assert containers[i].name + "_" + variable == EnvKey(containers[i].name, variable);
  }

  predicate PlainNames(containers: seq<Container>) {
    DistinctNames(containers) && forall i :: 0 <= i < |containers| ==> '_' !in containers[i].name
  }

  /** Arguments and command of every container are stored under their own keys. */
  lemma {:induction false} BackupKeepsArgsAndCommand(containers: seq<Container>, i: nat)
    requires i < |containers| && PlainNames(containers)
    ensures var c, data := containers[i], BackupOf(containers);
            && (|c.settings.args| > 0 ==> c.name + "_args" in data && data[c.name + "_args"] == Join(c.settings.args, ' '))
            && (|c.settings.command| > 0 ==>
                  c.name + "_command" in data && data[c.name + "_command"] == Join(c.settings.command, ' '))
  {
    var n := |containers| - 1;
    var c, before := containers[n], BackupOf(containers[..n]);
    if i == n {
      assert |c.name + "_args"| != |c.name + "_command"|;
    } else {
      var other := containers[i].name;
      BackupKeepsArgsAndCommand(containers[..n], i);
      assert c.settings.env[..|c.settings.env|] == c.settings.env;
      ForeignVariables(before, c, |c.settings.env|, other, "args");
      ForeignVariables(before, c, |c.settings.env|, other, "command");
      HeadingsDoNotClash(c, other, "args");
      HeadingsDoNotClash(c, other, "command");
      assert EnvKey(other, "args") == other + "_args" && EnvKey(other, "command") == other + "_command";
    }
  }

  lemma {:induction false} OwnReference(data: Data, c: Container, n: nat, j: nat)
    requires j < n <= |c.settings.env| && NoClash(c)
    requires c.settings.env[j].value == "" && c.settings.env[j].hasValueFrom
    ensures var key, after := EnvKey(c.name, c.settings.env[j].name) + "_type", WithVariables(data, c.name, c.settings.env[..n]);
            key in after && after[key] == "valueFrom"
  {
    assert c.settings.env[..n][..n - 1] == c.settings.env[..n - 1];
    if j < n - 1 {
      OwnReference(data, c, n - 1, j);
      var e, variable := c.settings.env[n - 1], c.settings.env[j].name + "_type";
      TypeKeyIsAVariableKey(c.name, c.settings.env[j].name);
      if EnvKey(c.name, e.name) == EnvKey(c.name, variable) { KeysAreInjective(c.name, e.name, c.name, variable); }
    }
  }

  /** A variable that only has a reference is marked as such. */
  lemma {:induction false} BackupMarksReferences(containers: seq<Container>, i: nat, j: nat)
    requires i < |containers| && DistinctNames(containers) && j < |containers[i].settings.env|
    requires forall k :: 0 <= k < |containers| ==> NoClash(containers[k])
    requires containers[i].settings.env[j].value == "" && containers[i].settings.env[j].hasValueFrom
    ensures var key := containers[i].name + "_" + containers[i].settings.env[j].name + "_type";
            key in BackupOf(containers) && BackupOf(containers)[key] == "valueFrom"
  {
    var n := |containers| - 1;
    var c, before := containers[n], BackupOf(containers[..n]);
    var name, variable := containers[i].name, containers[i].settings.env[j].name + "_type";
    assert c.settings.env[..|c.settings.env|] == c.settings.env;
    TypeKeyIsAVariableKey(name, containers[i].settings.env[j].name);
    if i == n {
      OwnReference(before, c, |c.settings.env|, j);
    } else {
      BackupMarksReferences(containers[..n], i, j);
      ForeignVariables(before, c, |c.settings.env|, name, variable);
    }
    assert variable[|variable| - 1] == 'e';
    HeadingsDoNotClash(c, name, variable);
  }

  /** What a container may have put under a key. */
  predicate Accounts(c: Container, key: string) {
    || (|c.settings.args| > 0 && key == c.name + "_args")
    || (|c.settings.command| > 0 && key == c.name + "_command")
    || exists j :: 0 <= j < |c.settings.env| && StoredFor(c.name, c.settings.env[j], key)
  }

  predicate StoredFor(container: string, e: EnvVar, key: string) {
    || (e.value != "" && key == container + "_" + e.name)
    || (e.value == "" && e.hasValueFrom && key == container + "_" + e.name + "_type")
  }

  lemma {:induction false} VariablesHoldNothingElse(data: Data, c: Container, n: nat, key: string)
    requires n <= |c.settings.env| && key in WithVariables(data, c.name, c.settings.env[..n])
    ensures key in data || exists j :: 0 <= j < n && StoredFor(c.name, c.settings.env[j], key)
  {
    if n > 0 {
      assert c.settings.env[..n][..n - 1] == c.settings.env[..n - 1];
      if key in WithVariables(data, c.name, c.settings.env[..n - 1]) {
        VariablesHoldNothingElse(data, c, n - 1, key);
      } else {
        assert StoredFor(c.name, c.settings.env[n - 1], key);
      }
    }
  }

  /** Every key of the backup stands for arguments, a command, a literal or a reference of a container. */
  lemma {:induction false} BackupHoldsNothingElse(containers: seq<Container>, key: string)
    requires key in BackupOf(containers)
    ensures exists i :: 0 <= i < |containers| && Accounts(containers[i], key)
  {
    var n := |containers| - 1;
    var c, before := containers[n], BackupOf(containers[..n]);
    assert c.settings.env[..|c.settings.env|] == c.settings.env;
    if key in before {
      BackupHoldsNothingElse(containers[..n], key);
      var i :| 0 <= i < n && Accounts(containers[..n][i], key);
      assert containers[i] == containers[..n][i];
    } else {
      if key in WithVariables(before, c.name, c.settings.env) {
        VariablesHoldNothingElse(before, c, |c.settings.env|, key);
      }
      assert Accounts(containers[n], key);
    }
  }

  lemma {:induction false} DefinedVariableOccurs(env: seq<EnvVar>, variable: string)
    requires LastLiteral(env, variable) != ""
    ensures exists i :: 0 <= i < |env| && env[i].name == variable
  {
    if env[|env| - 1].name != variable || env[|env| - 1].value == "" {
      DefinedVariableOccurs(env[..|env| - 1], variable);
      var i :| 0 <= i < |env| - 1 && env[..|env| - 1][i].name == variable;
      assert env[i].name == variable;
    }
  }
}
