/** The feature table the application is composed from: which features are
    switched on, and the check that every switched-on feature has its
    dependencies switched on too. The table is the record's entries in
    declaration order; a record has distinct names. */
module Features {
  import opened Common

  datatype FeatureConfig = FeatureConfig(enabled: bool, dependencies: Option<seq<string>>, version: Option<string>)

  datatype Feature = Feature(name: string, config: FeatureConfig)

  /** The shipped table: auth, apikey, content and media on, analytics off;
      every feature but auth depends on auth. */
  const FEATURES: seq<Feature> := [
    Feature("auth", FeatureConfig(true, None, Some("1.0.0"))),
    Feature("apikey", FeatureConfig(true, Some(["auth"]), Some("1.0.0"))),
    Feature("content", FeatureConfig(true, Some(["auth"]), Some("1.0.0"))),
    Feature("media", FeatureConfig(true, Some(["auth"]), Some("1.0.0"))),
    Feature("analytics", FeatureConfig(false, Some(["auth"]), Some("1.0.0")))
  ]

  /** `getEnabledFeatures` over a table: the names of the enabled entries,
      in table order. */
  function EnabledFeatures(table: seq<Feature>): (r: seq<string>)
    ensures |r| <= |table|
    ensures forall x :: x in r <==> exists i :: 0 <= i < |table| && table[i].name == x && table[i].config.enabled
  {
    if |table| == 0 then []
    else
      var rest := EnabledFeatures(table[1..]);
      assert forall i :: 1 <= i < |table| ==> table[i] == table[1..][i - 1];
      if table[0].config.enabled then [table[0].name] + rest else rest
  }

  /** A one-entry table lists its name exactly when the entry is enabled. */
  lemma EnabledFeaturesSingleton(f: Feature)
    ensures EnabledFeatures([f]) == if f.config.enabled then [f.name] else []
  {
    assert [f][1..] == [];
  }

  /** The listing keeps table order: listing a concatenation is the
      concatenation of the listings. */
  lemma {:induction false} EnabledFeaturesAppend(a: seq<Feature>, b: seq<Feature>)
    ensures EnabledFeatures(a + b) == EnabledFeatures(a) + EnabledFeatures(b)
  {
    if |a| == 0 {
      assert a + b == b;
    } else {
      assert (a + b)[0] == a[0];
      assert (a + b)[1..] == a[1..] + b;
      EnabledFeaturesAppend(a[1..], b);
    }
  }

  function GetEnabledFeatures(): seq<string> {
    EnabledFeatures(FEATURES)
  }

  function DependenciesOf(f: Feature): seq<string> {
    f.config.dependencies.GetOr([])
  }

  function RequiresMessage(feature: string, dep: string): string {
    "Feature '" + feature + "' requires '" + dep + "' to be enabled"
  }

  /** Dependency `j` of entry `i` is switched off although entry `i` is on. */
  predicate Violation(table: seq<Feature>, i: int, j: int) {
    && 0 <= i < |table| && table[i].config.enabled
    && 0 <= j < |DependenciesOf(table[i])|
    && DependenciesOf(table[i])[j] !in EnabledFeatures(table)
  }

  /** Every enabled feature's dependencies are enabled. */
  predicate DependenciesSatisfied(table: seq<Feature>) {
    forall i, j :: 0 <= i < |table| && 0 <= j < |DependenciesOf(table[i])| ==> !Violation(table, i, j)
  }

  /** The violation the nested loops meet first: the first enabled entry
      with a missing dependency, and its first missing dependency. */
  predicate FirstViolation(table: seq<Feature>, i: int, j: int) {
    && Violation(table, i, j)
    && (forall i', j' :: 0 <= i' < i && 0 <= j' < |DependenciesOf(table[i'])| ==> !Violation(table, i', j'))
    && (forall j' :: 0 <= j' < j ==> !Violation(table, i, j'))
  }

  /** `e` is the error thrown for the first violation, at `i` and `j`. */
  predicate ReportsViolation(table: seq<Feature>, i: int, j: int, e: Error) {
    FirstViolation(table, i, j) && e == Unexpected(RequiresMessage(table[i].name, DependenciesOf(table[i])[j]))
  }

  /** `validateFeatureDependencies`: for each enabled feature in order, for
      each of its dependencies in order, the dependency must be enabled; the
      first miss throws. */
  method ValidateFeatureDependencies(table: seq<Feature>) returns (out: Outcome)
    ensures out == Pass <==> DependenciesSatisfied(table)
    ensures out.Fail? ==> exists i, j :: ReportsViolation(table, i, j, out.error)
  {
    var enabled := EnabledFeatures(table);
    for i := 0 to |table|
      invariant forall i', j' :: 0 <= i' < i && 0 <= j' < |DependenciesOf(table[i'])| ==> !Violation(table, i', j')
    {
      if table[i].config.enabled && table[i].config.dependencies.Some? {
        var deps := table[i].config.dependencies.value;
        for j := 0 to |deps|
          invariant forall j' :: 0 <= j' < j ==> !Violation(table, i, j')
        {
          if deps[j] !in enabled {
            assert ReportsViolation(table, i, j, Unexpected(RequiresMessage(table[i].name, deps[j])));
            return Fail(Unexpected(RequiresMessage(table[i].name, deps[j])));
          }
        }
      }
    }
    out := Pass;
  }

  /** The dependencies of a disabled feature are never looked at. */
  lemma DisabledDependenciesIgnored(table: seq<Feature>, i: int, deps: Option<seq<string>>)
    requires 0 <= i < |table| && !table[i].config.enabled
    ensures DependenciesSatisfied(table) <==>
            DependenciesSatisfied(table[i := table[i].(config := table[i].config.(dependencies := deps))])
  {
    var table' := table[i := table[i].(config := table[i].config.(dependencies := deps))];
    assert EnabledFeatures(table') == EnabledFeatures(table) by {
      EnabledUnchanged(table, table');
    }
    forall i', j' | 0 <= i' < |table| ensures Violation(table, i', j') <==> Violation(table', i', j') {
    }
  }

  /** Tables with the same names and switches enable the same features. */
  lemma {:induction false} EnabledUnchanged(t1: seq<Feature>, t2: seq<Feature>)
    requires |t1| == |t2|
    requires forall k :: 0 <= k < |t1| ==> t1[k].name == t2[k].name && t1[k].config.enabled == t2[k].config.enabled
    ensures EnabledFeatures(t1) == EnabledFeatures(t2)
  {
    if |t1| > 0 {
      EnabledUnchanged(t1[1..], t2[1..]);
    }
  }

  /** With the shipped table, analytics is excluded and validation passes. */
  lemma ShippedTableIsConsistent()
    ensures GetEnabledFeatures() == ["auth", "apikey", "content", "media"]
    ensures "analytics" !in GetEnabledFeatures()
    ensures DependenciesSatisfied(FEATURES)
  {
    assert GetEnabledFeatures() == ["auth", "apikey", "content", "media"];
    forall i, j ensures !Violation(FEATURES, i, j) {
      if 0 <= i < |FEATURES| && 0 <= j < |DependenciesOf(FEATURES[i])| {
        assert DependenciesOf(FEATURES[i])[j] == "auth";
      }
    }
  }
}
