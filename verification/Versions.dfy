// Version strings: comparing two of them, finding the oldest of a list, and the
// compatibility matrix (internal/controller/validation.go).
module Versions {
  import opened Strings

  // ---------------------------------------------------------------- comparing

  function ScanAll(parts: seq<string>): (r: seq<int>) {
    seq(|parts|, i requires 0 <= i < |parts| => ScanInt(parts[i]))
  }

  /** The numbers of a version string: "v1.2" is [1, 2]. */
  function Components(v: string): (numbers: seq<int>) {
    ScanAll(Split(TrimPrefix(v, 'v'), '.'))
  }

  /** A missing component counts as 0. */
  function At(numbers: seq<int>, k: nat): (r: int) {
    if k < |numbers| then numbers[k] else 0
  }

  ghost predicate AgreeBelow(a: seq<int>, b: seq<int>, k: nat) {
    forall j: nat :: j < k ==> At(a, j) == At(b, j)
  }

  ghost predicate Agree(a: seq<int>, b: seq<int>) {
    forall j: nat :: At(a, j) == At(b, j)
  }

  /** a is smaller at the first component where the two differ. */
  ghost predicate Precedes(a: seq<int>, b: seq<int>) {
    exists k: nat :: At(a, k) < At(b, k) && AgreeBelow(a, b, k)
  }

  /** What compareVersions returns. */
  ghost function Compare(v1: string, v2: string): (r: int) {
    var a, b := Components(v1), Components(v2);
    if Precedes(a, b) then -1 else if Precedes(b, a) then 1 else 0
  }

  lemma PrecedesIsAsymmetric(a: seq<int>, b: seq<int>)
    ensures !(Precedes(a, b) && Precedes(b, a))
  {
    forall k: nat, l: nat | At(a, k) < At(b, k) && AgreeBelow(a, b, k) && At(b, l) < At(a, l)
      ensures !AgreeBelow(b, a, l)
    {
      assert k < l;
    }
  }

  lemma PrecedesIsTransitive(a: seq<int>, b: seq<int>, c: seq<int>)
    requires Precedes(a, b) && Precedes(b, c)
    ensures Precedes(a, c)
  {
    var k: nat :| At(a, k) < At(b, k) && AgreeBelow(a, b, k);
    var l: nat :| At(b, l) < At(c, l) && AgreeBelow(b, c, l);
    var m := if k < l then k else l;
    assert At(a, m) < At(c, m) && AgreeBelow(a, c, m);
  }

  lemma {:induction false} Trichotomy(a: seq<int>, b: seq<int>, k: nat)
    requires AgreeBelow(a, b, k)
    ensures Precedes(a, b) || Precedes(b, a) || Agree(a, b)
    decreases |a| + |b| - k
  {
    if At(a, k) == At(b, k) {
      if k < |a| + |b| {
        Trichotomy(a, b, k + 1);
      } else {
        assert forall j: nat :: j >= k ==> At(a, j) == 0 && At(b, j) == 0;
      }
    } else {
      assert AgreeBelow(b, a, k);
    }
  }

  lemma AgreeingIsInterchangeable(a: seq<int>, b: seq<int>, c: seq<int>)
    requires Agree(a, b)
    ensures Precedes(a, c) <==> Precedes(b, c)
    ensures Precedes(c, a) <==> Precedes(c, b)
  {
    assert forall k: nat :: AgreeBelow(a, c, k) <==> AgreeBelow(b, c, k);
    assert forall k: nat :: AgreeBelow(c, a, k) <==> AgreeBelow(c, b, k);
  }

  lemma CompareMeaning(v1: string, v2: string)
    ensures Compare(v1, v2) == -1 <==> Precedes(Components(v1), Components(v2))
    ensures Compare(v1, v2) == 1 <==> Precedes(Components(v2), Components(v1))
    ensures Compare(v1, v2) == 0 <==> Agree(Components(v1), Components(v2))
  {
    var a, b := Components(v1), Components(v2);
    PrecedesIsAsymmetric(a, b);
    Trichotomy(a, b, 0);
  }

  lemma CompareIsAntisymmetric(v1: string, v2: string)
    ensures Compare(v1, v2) in {-1, 0, 1}
    ensures Compare(v1, v2) == -Compare(v2, v1)
    ensures Compare(v1, v1) == 0
  {
    CompareMeaning(v1, v2);
    CompareMeaning(v2, v1);
    CompareMeaning(v1, v1);
  }

  /** With CompareIsAntisymmetric: a total preorder on all strings, whatever their numbers of components. */
  lemma CompareIsTransitive(v1: string, v2: string, v3: string)
    ensures Compare(v1, v2) <= 0 && Compare(v2, v3) <= 0 ==> Compare(v1, v3) <= 0
    ensures Compare(v1, v2) < 0 && Compare(v2, v3) <= 0 ==> Compare(v1, v3) < 0
    ensures Compare(v1, v2) <= 0 && Compare(v2, v3) < 0 ==> Compare(v1, v3) < 0
  {
    var a, b, c := Components(v1), Components(v2), Components(v3);
    CompareMeaning(v1, v2);
    CompareMeaning(v2, v3);
    CompareMeaning(v1, v3);
    if Precedes(a, b) && Precedes(b, c) {
      PrecedesIsTransitive(a, b, c);
    } else if Agree(a, b) {
      AgreeingIsInterchangeable(a, b, c);
    } else if Agree(b, c) {
      AgreeingIsInterchangeable(b, c, a);
    }
  }

  lemma AppendedComponent(v: string, text: string)
    requires '.' !in text
    ensures Components(v + "." + text) == Components(v) + [ScanInt(text)]
  {
    var t := TrimPrefix(v, 'v');
    assert TrimPrefix(v + "." + text, 'v') == t + ['.'] + text;
    SplitOfConcat(t, text, '.');
    SplitOfAtom(text, '.');
    assert Split(t + ['.'] + text, '.') == Split(t, '.') + [text];
  }

  lemma AppendedZero(v: string)
    ensures Components(v + ".0") == Components(v) + [0]
  {
    assert PrintNat(0) == "0";
    ScanUndoesPrint(0);
    AppendedComponent(v, "0");
    assert v + "." + "0" == v + ".0";
  }

  /** Zero padding: "1.0" and "v1.0.0" compare equal, and so do any s and s.0. */
  lemma TrailingZeroIsIgnored(v: string)
    ensures Compare(v, v + ".0") == 0
    ensures !("v" <= v) ==> Compare(v, "v" + v) == 0
  {
    AppendedZero(v);
    assert Agree(Components(v), Components(v + ".0"));
    CompareMeaning(v, v + ".0");
    CompareMeaning(v, "v" + v);
    if !("v" <= v) { assert TrimPrefix("v" + v, 'v') == TrimPrefix(v, 'v'); }
  }

  lemma SameScanSameVersion(v: string, a: string, b: string)
    requires '.' !in a && '.' !in b && ScanInt(a) == ScanInt(b)
    ensures Compare(v + "." + a, v + "." + b) == 0
  {
    AppendedComponent(v, a);
    AppendedComponent(v, b);
    hide Components, ScanInt;
    assert Agree(Components(v + "." + a), Components(v + "." + b));
    CompareMeaning(v + "." + a, v + "." + b);
  }

  /** What follows the digits of a component does not count, such as a pre-release label. */
  lemma SuffixIsIgnored(v: string, n: nat, suffix: string)
    requires suffix != "" && !IsDigit(suffix[0]) && '.' !in suffix
    ensures Compare(v + "." + PrintNat(n), v + "." + (PrintNat(n) + suffix)) == 0
  {
    var d := PrintNat(n);
    ScanIgnoresSuffix(n, suffix);
    hide PrintNat, ScanInt, Compare;
    SameScanSameVersion(v, d, d + suffix);
  }

  function Padded(v: string, n: nat): (r: string) {
    if n == 0 then v else Padded(v, n - 1) + ".0"
  }

  lemma {:induction false} PaddedComponents(v: string, n: nat)
    ensures |Components(Padded(v, n))| == |Components(v)| + n
    ensures Agree(Components(Padded(v, n)), Components(v))
  {
    if n > 0 {
      PaddedComponents(v, n - 1);
      AppendedZero(Padded(v, n - 1));
    }
  }

  /** Between any two versions there is another one. */
  lemma VersionsAreDense(low: string, high: string) returns (middle: string)
    requires Compare(low, high) < 0
    ensures Compare(low, middle) < 0 && Compare(middle, high) < 0
  {
    var padded := Padded(low, |Components(high)|);
    middle := padded + ".1";
    PaddedComponents(low, |Components(high)|);
    assert PrintNat(1) == "1";
    ScanUndoesPrint(1);
    AppendedComponent(padded, "1");
    assert padded + "." + "1" == middle;
    hide Components, ScanInt;
    var a, b, c, m := Components(low), Components(high), Components(middle), |Components(padded)|;
    assert At(a, m) < At(c, m) && AgreeBelow(a, c, m);
    CompareMeaning(low, middle);
    CompareMeaning(low, high);
    var k: nat :| At(a, k) < At(b, k) && AgreeBelow(a, b, k);
    assert k < m && At(c, k) < At(b, k) && AgreeBelow(c, b, k);
    CompareMeaning(middle, high);
  }

  method CompareVersions(v1: string, v2: string) returns (r: int)
    ensures r == Compare(v1, v2)
    ensures r == -1 || r == 0 || r == 1
  {
    hide ScanInt, Split, TrimPrefix, Compare;
    CompareMeaning(v1, v2);
    var parts1, parts2 := Split(TrimPrefix(v1, 'v'), '.'), Split(TrimPrefix(v2, 'v'), '.');
    ghost var a, b := Components(v1), Components(v2);
    var maxLen := |parts1|;
    if |parts2| > maxLen { maxLen := |parts2|; }
    for i := 0 to maxLen
      invariant AgreeBelow(a, b, i)
    {
      var p1, p2 := 0, 0;
      if i < |parts1| { p1 := ScanInt(parts1[i]); }
      if i < |parts2| { p2 := ScanInt(parts2[i]); }
      assert p1 == At(a, i) && p2 == At(b, i);
      if p1 < p2 {
        return -1;
      } else if p1 > p2 {
        assert AgreeBelow(b, a, i);
        return 1;
      }
    }
    assert forall j: nat :: j >= maxLen ==> At(a, j) == 0 && At(b, j) == 0;
    return 0;
  }

  // ------------------------------------------------- numeric release versions

  /** A release printed as major.minor.patch, with or without the leading v. */
  function PrintRelease(leadingV: bool, major: nat, minor: nat, patch: nat): (r: string) {
    (if leadingV then "v" else "") + Join([PrintNat(major), PrintNat(minor), PrintNat(patch)], '.')
  }

  ghost predicate EarlierRelease(a: (nat, nat, nat), b: (nat, nat, nat)) {
    a.0 < b.0 || (a.0 == b.0 && (a.1 < b.1 || (a.1 == b.1 && a.2 < b.2)))
  }

  lemma TextOfRelease(leadingV: bool, major: nat, minor: nat, patch: nat)
    ensures TrimPrefix(PrintRelease(leadingV, major, minor, patch), 'v')
         == Join([PrintNat(major), PrintNat(minor), PrintNat(patch)], '.')
  {
    hide PrintNat;
    var parts := [PrintNat(major), PrintNat(minor), PrintNat(patch)];
    var text := Join(parts, '.');
    assert text[0] == parts[0][0] by { assert text == parts[0] + ['.'] + Join(parts[1..], '.'); }
    assert IsDigit(text[0]);
    hide Join;
    if leadingV { assert ("v" + text)[1..] == text; } else { assert "" + text == text; }
  }

  lemma ComponentsOfRelease(leadingV: bool, major: nat, minor: nat, patch: nat)
    requires major <= MAX_INT64 && minor <= MAX_INT64 && patch <= MAX_INT64
    ensures Components(PrintRelease(leadingV, major, minor, patch)) == [major, minor, patch]
  {
    hide PrintNat, Join, ScanInt, PrintRelease, Split, TrimPrefix;
    TextOfRelease(leadingV, major, minor, patch);
    SplitUndoesJoin([PrintNat(major), PrintNat(minor), PrintNat(patch)], '.');
    ScanUndoesPrint(major);
    ScanUndoesPrint(minor);
    ScanUndoesPrint(patch);
  }

  /** Item 11.2 of Semantic Versioning 2.0.0, for components below 2^63. */
  lemma ReleasesCompareNumerically(v: bool, a: (nat, nat, nat), w: bool, b: (nat, nat, nat))
    requires a.0 <= MAX_INT64 && a.1 <= MAX_INT64 && a.2 <= MAX_INT64
    requires b.0 <= MAX_INT64 && b.1 <= MAX_INT64 && b.2 <= MAX_INT64
    ensures Compare(PrintRelease(v, a.0, a.1, a.2), PrintRelease(w, b.0, b.1, b.2))
         == if EarlierRelease(a, b) then -1 else if EarlierRelease(b, a) then 1 else 0
  {
    ComponentsOfRelease(v, a.0, a.1, a.2);
    ComponentsOfRelease(w, b.0, b.1, b.2);
    CompareMeaning(PrintRelease(v, a.0, a.1, a.2), PrintRelease(w, b.0, b.1, b.2));
    var x, y: seq<int> := [a.0, a.1, a.2], [b.0, b.1, b.2];
    forall s: seq<int>, t: seq<int>, k: nat
      | |s| == 3 && |t| == 3 && k < 3 && AgreeBelow(s, t, k) && s[k] < t[k]
      ensures Precedes(s, t)
    {
      assert At(s, k) < At(t, k);
    }
    var k := if a.0 != b.0 then 0 else if a.1 != b.1 then 1 else 2;
    assert AgreeBelow(x, y, k) && AgreeBelow(y, x, k);
    assert x[k] < y[k] <==> EarlierRelease(a, b);
    assert y[k] < x[k] <==> EarlierRelease(b, a);
    PrecedesIsAsymmetric(x, y);
    if x == y { assert Agree(x, y); }
  }

  // ---------------------------------------------------------------- the oldest

  /** What findMinimumVersion returns. */
  ghost function Oldest(vs: seq<string>): (r: string) {
    if |vs| == 0 then ""
    else if |vs| == 1 then vs[0]
    else
      var m := Oldest(vs[..|vs| - 1]);
      if Compare(vs[|vs| - 1], m) < 0 then vs[|vs| - 1] else m
  }

  ghost predicate LeftmostMinimum(vs: seq<string>, k: nat) {
    && k < |vs|
    && (forall j :: 0 <= j < |vs| ==> Compare(vs[k], vs[j]) <= 0)
    && (forall j :: 0 <= j < k ==> Compare(vs[k], vs[j]) < 0)
  }

  lemma {:induction false} OldestIsLeftmostMinimum(vs: seq<string>) returns (k: nat)
    requires |vs| > 0
    ensures LeftmostMinimum(vs, k) && Oldest(vs) == vs[k]
    ensures forall l :: LeftmostMinimum(vs, l) ==> l == k
  {
    hide Compare;
    var n := |vs| - 1;
    if n == 0 {
      k := 0;
      CompareIsAntisymmetric(vs[0], vs[0]);
    } else {
      var front := vs[..n];
      var i := OldestIsLeftmostMinimum(front);
      CompareIsAntisymmetric(vs[n], front[i]);
      CompareIsAntisymmetric(vs[n], vs[n]);
      if Compare(vs[n], front[i]) < 0 {
        k := n;
        forall j | 0 <= j < n ensures Compare(vs[n], vs[j]) < 0 {
          assert Compare(front[i], front[j]) <= 0;
          CompareIsTransitive(vs[n], front[i], vs[j]);
        }
      } else {
        k := i;
        assert forall j :: 0 <= j < n ==> vs[j] == front[j];
      }
    }
    forall l: nat | LeftmostMinimum(vs, l) ensures l == k {
      CompareIsAntisymmetric(vs[k], vs[l]);
    }
  }

  /** The order in which clusters are listed changes the result at most within a class of equal versions. */
  lemma OldestIgnoresOrder(vs: seq<string>, ws: seq<string>)
    requires multiset(vs) == multiset(ws)
    ensures Compare(Oldest(vs), Oldest(ws)) == 0
  {
    hide Compare;
    assert |vs| == |multiset(vs)| == |multiset(ws)| == |ws|;
    if |vs| == 0 {
      CompareIsAntisymmetric("", "");
    } else {
      assert vs[0] in multiset(ws);
      var k := OldestIsLeftmostMinimum(vs);
      var l := OldestIsLeftmostMinimum(ws);
      assert vs[k] in multiset(ws) && ws[l] in multiset(vs);
      var i :| 0 <= i < |ws| && ws[i] == vs[k];
      var j :| 0 <= j < |vs| && vs[j] == ws[l];
      assert Compare(vs[k], vs[j]) <= 0 && Compare(ws[l], ws[i]) <= 0;
      CompareIsAntisymmetric(vs[k], ws[l]);
    }
  }

  method FindMinimumVersion(versions: seq<string>) returns (minVersion: string)
    ensures minVersion == Oldest(versions)
  {
    if |versions| == 0 { return ""; }
    minVersion := versions[0];
    for i := 1 to |versions|
      invariant minVersion == Oldest(versions[..i])
    {
      assert versions[..i + 1][..i] == versions[..i];
      var c := CompareVersions(versions[i], minVersion);
      if c < 0 { minVersion := versions[i]; }
    }
    assert versions[..|versions|] == versions;
  }

  // ------------------------------------------------------------ remote clusters

  /** status.remoteVersion of a ForeignCluster, as read. */
  datatype RemoteVersion = Unreadable | Missing | Reported(version: string)

  predicate HasVersion(r: RemoteVersion) { r.Reported? && r.version != "" }

  /** What getRemoteClusterVersions returns. */
  function Defaulted(local: string, remotes: seq<RemoteVersion>): (vs: seq<string>)
    ensures |vs| == |remotes|
  {
    seq(|remotes|, i requires 0 <= i < |remotes| =>
      if HasVersion(remotes[i]) then remotes[i].version else local)
  }

  /** Only the versions that the remote clusters do report. */
  function ReportedOnly(remotes: seq<RemoteVersion>): (r: seq<string>) {
    if |remotes| == 0 then []
    else ReportedOnly(remotes[..|remotes| - 1]) +
         if HasVersion(remotes[|remotes| - 1]) then [remotes[|remotes| - 1].version] else []
  }

  method GetRemoteClusterVersions(remotes: seq<RemoteVersion>, local: string) returns (vs: seq<string>)
    ensures vs == Defaulted(local, remotes)
    ensures |vs| == |remotes|
    ensures forall i, v :: 0 <= i < |remotes| && remotes[i] == Reported(v) && v != "" ==> vs[i] == v
    ensures forall i :: 0 <= i < |remotes| && remotes[i] in {Unreadable, Missing, Reported("")} ==> vs[i] == local
  {
    vs := [];
    for i := 0 to |remotes|
      invariant vs == Defaulted(local, remotes)[..i]
    {
      match remotes[i] {
        case Unreadable => vs := vs + [local];
        case Missing => vs := vs + [local];
        case Reported(version) =>
          if version == "" { vs := vs + [local]; } else { vs := vs + [version]; }
      }
    }
  }

  /** Every version that a remote cluster reports is looked at: none is older than the minimum, which
      is the local version or one of them. */
  lemma ReportedVersionsCount(local: string, remotes: seq<RemoteVersion>)
    ensures var vs := Defaulted(local, remotes);
            var oldest := Oldest([local] + vs);
            && |vs| == |remotes|
            && (forall i, v :: 0 <= i < |remotes| && remotes[i] == Reported(v) && v != "" ==>
                  vs[i] == v && Compare(oldest, v) <= 0)
            && (forall i :: 0 <= i < |remotes| && remotes[i] in {Unreadable, Missing, Reported("")} ==> vs[i] == local)
            && Compare(oldest, local) <= 0
            && (oldest == local || (oldest != "" && Reported(oldest) in remotes))
  {
    hide Compare;
    var vs := Defaulted(local, remotes);
    var all := [local] + vs;
    var k := OldestIsLeftmostMinimum(all);
    assert Compare(all[k], all[0]) <= 0;
    forall i, v | 0 <= i < |remotes| && remotes[i] == Reported(v) && v != ""
      ensures vs[i] == v && Compare(Oldest(all), v) <= 0
    {
      assert all[i + 1] == v;
    }
  }

  /** With the local version first, clusters that report no version change nothing. */
  lemma {:induction false} SilentClustersDoNotMatter(local: string, remotes: seq<RemoteVersion>)
    ensures Oldest([local] + Defaulted(local, remotes)) == Oldest([local] + ReportedOnly(remotes))
  {
    hide Compare;
    var n := |remotes|;
    if n == 0 {
      assert Defaulted(local, remotes) == [];
    } else {
      var front := remotes[..n - 1];
      SilentClustersDoNotMatter(local, front);
      var all, some := [local] + Defaulted(local, remotes), [local] + ReportedOnly(remotes);
      assert all[..n] == [local] + Defaulted(local, front);
      if HasVersion(remotes[n - 1]) {
        assert some[..|some| - 1] == [local] + ReportedOnly(front);
      } else {
        var before := [local] + Defaulted(local, front);
        var k := OldestIsLeftmostMinimum(before);
        assert Compare(before[k], before[0]) <= 0;
        CompareIsAntisymmetric(local, before[k]);
        assert some == [local] + ReportedOnly(front);
      }
    }
  }

  // ------------------------------------------------------------ compatibility

  type Matrix = map<string, seq<string>>

  /** The exact strings decide; equal versions written differently do not match. */
  predicate Listed(matrix: Matrix, source: string, target: string) {
    source in matrix && target in matrix[source]
  }

  method IsCompatible(matrix: Matrix, source: string, target: string) returns (ok: bool)
    ensures ok <==> Listed(matrix, source, target)
  {
    if source !in matrix { return false; }
    var compatible := matrix[source];
    for i := 0 to |compatible|
      invariant target !in compatible[..i]
    {
      if compatible[i] == target { return true; }
    }
    assert compatible[..|compatible|] == compatible;
    return false;
  }

  /** Every entry of the matrix upgrades to a later version. */
  ghost predicate ForwardOnly(matrix: Matrix) {
    forall source, target :: Listed(matrix, source, target) ==> Compare(source, target) < 0
  }

  /** The gate of performValidation: the oldest of the clusters' versions may go to the target. */
  ghost predicate Gate(matrix: Matrix, vs: seq<string>, target: string) {
    Listed(matrix, Oldest(vs), target)
  }

  /** A forward-only matrix puts the target after the oldest cluster... */
  lemma ForwardGateBeatsOldest(matrix: Matrix, vs: seq<string>, target: string)
    requires |vs| > 0 && ForwardOnly(matrix) && Gate(matrix, vs, target)
    ensures Compare(Oldest(vs), target) < 0
    ensures exists i :: 0 <= i < |vs| && Compare(vs[i], target) < 0
  {
    var k := OldestIsLeftmostMinimum(vs);
    assert Compare(vs[k], target) < 0;
  }

  ghost predicate GateProtects(vs: seq<string>, i: nat)
    requires i < |vs|
  {
    forall matrix, target :: ForwardOnly(matrix) && Gate(matrix, vs, target) ==> Compare(vs[i], target) < 0
  }

  ghost predicate GateAllowsDowngrade(vs: seq<string>, i: nat)
    requires i < |vs|
  {
    exists matrix, target :: ForwardOnly(matrix) && Gate(matrix, vs, target) && Compare(target, vs[i]) < 0
  }

  lemma OneEntry(vs: seq<string>, target: string)
    requires Compare(Oldest(vs), target) < 0
    ensures ForwardOnly(map[Oldest(vs) := [target]]) && Gate(map[Oldest(vs) := [target]], vs, target)
  {
    hide Compare, Oldest;
    var matrix: Matrix := map[Oldest(vs) := [target]];
    assert forall source, t :: Listed(matrix, source, t) ==> source == Oldest(vs) && t == target;
  }

  /** ...and after another cluster exactly when that cluster is as old as the oldest; any later
      one can even be downgraded.  With i = 0 this is the local cluster, which some remote
      cluster may precede. */
  lemma GateProtectsOnlyTheOldest(vs: seq<string>, i: nat)
    requires i < |vs|
    ensures GateProtects(vs, i) <==> Compare(vs[i], Oldest(vs)) == 0
    ensures GateAllowsDowngrade(vs, i) <==> Compare(Oldest(vs), vs[i]) < 0
  {
    var k := OldestIsLeftmostMinimum(vs);
    var oldest := Oldest(vs);
    hide Compare, Oldest;
    CompareIsAntisymmetric(vs[i], oldest);
    forall matrix, target | ForwardOnly(matrix) && Gate(matrix, vs, target)
      ensures Compare(vs[i], oldest) == 0 ==> Compare(vs[i], target) < 0
      ensures Compare(target, vs[i]) < 0 ==> Compare(oldest, vs[i]) < 0
    {
      CompareIsTransitive(vs[i], oldest, target);
      CompareIsTransitive(oldest, target, vs[i]);
    }
    if Compare(oldest, vs[i]) < 0 {
      var target := VersionsAreDense(oldest, vs[i]);
      OneEntry(vs, target);
      CompareIsAntisymmetric(vs[i], target);
    }
  }
}
