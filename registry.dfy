/** The route registry: route modules registered by name, the enabled ones
    ordered by priority, and the start-up pass that sets each of them up. A
    module's `setup` is opaque; what it does to the application is left to
    the `setup` parameter, which reports whether it threw. */
module Registry {
  import opened Common

  /** A route module: an identifier standing for its `setup` function, an
      optional feature it belongs to, and an optional priority. */
  datatype RouteModule = RouteModule(setupName: string, feature: Option<string>, priority: Option<int>)

  datatype Entry = Entry(name: string, routeModule: RouteModule)

  function EntryNameOf(e: Entry): string { e.name }

  /** `a.priority || 100`: a missing priority and priority 0 both count as 100. */
  function EffectivePriority(m: RouteModule): (p: int)
    ensures m.priority == Some(0) ==> p == 100
    ensures m.priority.Some? && m.priority.value != 0 ==> p == m.priority.value
    ensures m.priority.None? ==> p == 100
  {
    if m.priority.None? || m.priority.value == 0 then 100 else m.priority.value
  }

  /** The filter of `getEnabledRoutes`: no feature, or an enabled one. */
  predicate IsEnabled(m: RouteModule, enabledFeatures: seq<string>) {
    m.feature.None? || m.feature.value == "" || m.feature.value in enabledFeatures
  }

  /** The enabled modules, in registration order. */
  function EnabledModules(s: seq<RouteModule>, enabledFeatures: seq<string>): (r: seq<RouteModule>)
    ensures forall m :: m in r <==> m in s && IsEnabled(m, enabledFeatures)
  {
    Filter(s, (m: RouteModule) => IsEnabled(m, enabledFeatures))
  }

  // ---------------------------------------------------------------------------
  // The stable sort by a numeric key

  /** Ordered by `key`, lowest first. */
  predicate SortedBy(key: RouteModule -> int, s: seq<RouteModule>) {
    forall i, j :: 0 <= i < j < |s| ==> key(s[i]) <= key(s[j])
  }

  /** Insert `m` before the first module whose key is not below its own. */
  function Insert(key: RouteModule -> int, m: RouteModule, s: seq<RouteModule>): (r: seq<RouteModule>)
    ensures multiset(r) == multiset(s) + multiset{m}
    ensures |r| == |s| + 1
  {
    if |s| == 0 || key(m) <= key(s[0]) then [m] + s
    else
      assert s == [s[0]] + s[1..];
      [s[0]] + Insert(key, m, s[1..])
  }

  /** `Array.prototype.sort` with the comparator `key(a) - key(b)`, which is
      stable. */
  function SortBy(key: RouteModule -> int, s: seq<RouteModule>): (r: seq<RouteModule>)
    ensures multiset(r) == multiset(s)
    ensures |r| == |s|
  {
    if |s| == 0 then []
    else
      assert s == [s[0]] + s[1..];
      Insert(key, s[0], SortBy(key, s[1..]))
  }

  lemma {:induction false} InsertSorted(key: RouteModule -> int, m: RouteModule, s: seq<RouteModule>)
    requires SortedBy(key, s)
    ensures SortedBy(key, Insert(key, m, s))
    decreases |s|
  {
    if |s| > 0 && key(m) > key(s[0]) {
      InsertSorted(key, m, s[1..]);
      var tail := Insert(key, m, s[1..]);
      forall k | 0 <= k < |tail| ensures key(s[0]) <= key(tail[k]) {
        assert tail[k] in multiset(tail);
        assert tail[k] == m || tail[k] in multiset(s[1..]);
        if tail[k] != m {
          var q :| 0 <= q < |s[1..]| && s[1..][q] == tail[k];
          assert s[q + 1] == tail[k];
        }
      }
    }
  }

  /** The result is ordered by the key, lowest first. */
  lemma {:induction false} SortIsSorted(key: RouteModule -> int, s: seq<RouteModule>)
    ensures SortedBy(key, SortBy(key, s))
  {
    if |s| > 0 {
      SortIsSorted(key, s[1..]);
      InsertSorted(key, s[0], SortBy(key, s[1..]));
    }
  }

  /** The modules whose key is `p`, in order. */
  function AtKey(key: RouteModule -> int, s: seq<RouteModule>, p: int): (r: seq<RouteModule>)
    ensures forall i :: 0 <= i < |r| ==> key(r[i]) == p
  {
    if |s| == 0 then []
    else if key(s[0]) == p then [s[0]] + AtKey(key, s[1..], p)
    else AtKey(key, s[1..], p)
  }

  lemma {:induction false} InsertAtKey(key: RouteModule -> int, m: RouteModule, s: seq<RouteModule>, p: int)
    requires SortedBy(key, s)
    ensures AtKey(key, Insert(key, m, s), p) ==
            if key(m) == p then [m] + AtKey(key, s, p) else AtKey(key, s, p)
    decreases |s|
  {
    if |s| > 0 && key(m) > key(s[0]) {
      InsertAtKey(key, m, s[1..], p);
      if key(m) == p {
        assert key(s[0]) != p;
      }
    }
  }

  /** Stability: modules with equal keys keep their relative order, which
      is registration order. */
  lemma {:induction false} SortIsStable(key: RouteModule -> int, s: seq<RouteModule>, p: int)
    ensures AtKey(key, SortBy(key, s), p) == AtKey(key, s, p)
  {
    if |s| > 0 {
      SortIsStable(key, s[1..], p);
      SortIsSorted(key, s[1..]);
      InsertAtKey(key, s[0], SortBy(key, s[1..]), p);
    }
  }

  const Documentation := RouteModule("setupDocumentationRoutes", None, Some(0))

  /** As written, the documentation module's priority 0 is falsy, so it is
      ordered as 100, after a module of priority 10, not first. */
  lemma DocumentationSortsAsHundred(other: RouteModule)
    requires other.priority == Some(10)
    ensures SortBy(EffectivePriority, [Documentation, other]) == [other, Documentation]
  {
  }

  /** The rule the documentation module's "setup first" intends:
      `a.priority ?? 100`, under which 0 is the highest priority. */
  function NullishPriority(m: RouteModule): (p: int)
    ensures m.priority.Some? ==> p == m.priority.value
    ensures m.priority.None? ==> p == 100
  {
    m.priority.GetOr(100)
  }

  /** Under the intended rule the documentation module comes first among
      modules of positive priority. */
  lemma NullishSortPutsDocumentationFirst(s: seq<RouteModule>)
    requires Documentation in s
    requires forall m :: m in s && m != Documentation ==> NullishPriority(m) > 0
    ensures SortBy(NullishPriority, s)[0] == Documentation
  {
    var r := SortBy(NullishPriority, s);
    SortIsSorted(NullishPriority, s);
    assert Documentation in multiset(r);
    var j :| 0 <= j < |r| && r[j] == Documentation;
    assert NullishPriority(r[0]) <= NullishPriority(r[j]);
    assert r[0] in multiset(s);
  }

  // ---------------------------------------------------------------------------
  // The registry

  class RouteRegistry {
    /** `Map` entries in insertion order. */
    var routes: seq<Entry>

    ghost predicate Valid()
      reads this
    {
      UniqueKeys(routes, EntryNameOf)
    }

    constructor ()
      ensures Valid() && routes == []
    {
      routes := [];
    }

    function Modules(): (r: seq<RouteModule>)
      reads this
      ensures |r| == |routes|
      ensures forall i :: 0 <= i < |routes| ==> r[i] == routes[i].routeModule
    {
      seq(|routes|, i requires 0 <= i < |routes| reads this => routes[i].routeModule)
    }

    /** `Map.set`: a new name goes to the end; an existing name keeps its
        place and gets the new module. */
    method Register(name: string, routeModule: RouteModule)
      requires Valid()
      modifies this
      ensures Valid()
      ensures forall i :: 0 <= i < |old(routes)| && old(routes)[i].name == name ==>
                routes == old(routes)[i := Entry(name, routeModule)]
      ensures (forall i :: 0 <= i < |old(routes)| ==> old(routes)[i].name != name) ==>
                routes == old(routes) + [Entry(name, routeModule)]
    {
      var i := 0;
      while i < |routes|
        invariant 0 <= i <= |routes|
        invariant forall k :: 0 <= k < i ==> routes[k].name != name
      {
        if routes[i].name == name {
          routes := routes[i := Entry(name, routeModule)];
          return;
        }
        i := i + 1;
      }
      routes := routes + [Entry(name, routeModule)];
    }

    /** `getEnabledRoutes`: keep the enabled modules, then sort stably. */
    function GetEnabledRoutes(enabledFeatures: seq<string>): (r: seq<RouteModule>)
      reads this
      ensures SortedBy(EffectivePriority, r)
      ensures multiset(r) == multiset(EnabledModules(Modules(), enabledFeatures))
      ensures forall m :: m in r <==> m in Modules() && IsEnabled(m, enabledFeatures)
      ensures forall p :: AtKey(EffectivePriority, r, p) == AtKey(EffectivePriority, EnabledModules(Modules(), enabledFeatures), p)
    {
      var kept := EnabledModules(Modules(), enabledFeatures);
      SortIsSorted(EffectivePriority, kept);
      forall p ensures AtKey(EffectivePriority, SortBy(EffectivePriority, kept), p) == AtKey(EffectivePriority, kept, p) {
        SortIsStable(EffectivePriority, kept, p);
      }
      assert forall m :: m in SortBy(EffectivePriority, kept) <==> m in multiset(kept);
      SortBy(EffectivePriority, kept)
    }
  }

  /** `setupRegisteredRoutes`: every enabled module is set up, in order; a
      module whose setup throws is logged and the pass goes on. The result
      lists the modules set up and, of them, those that threw. */
  method SetupRegisteredRoutes(registry: RouteRegistry, enabledFeatures: seq<string>, setup: RouteModule -> bool)
    returns (called: seq<RouteModule>, failed: seq<RouteModule>)
    ensures called == registry.GetEnabledRoutes(enabledFeatures)
    ensures forall m :: m in failed <==> m in called && !setup(m)
    ensures |failed| <= |called|
  {
    var enabledRoutes := registry.GetEnabledRoutes(enabledFeatures);
    called := [];
    failed := [];
    for i := 0 to |enabledRoutes|
      invariant called == enabledRoutes[..i]
      invariant forall m :: m in failed <==> m in called && !setup(m)
      invariant |failed| <= |called|
    {
      var route := enabledRoutes[i];
      var ok := setup(route);
      if !ok {
        failed := failed + [route];
      }
      called := called + [route];
    }
    assert enabledRoutes[..|enabledRoutes|] == enabledRoutes;
  }
}
