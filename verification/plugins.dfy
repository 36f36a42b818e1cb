/** The plugin lists of the ConfigMap: one canonical list, whatever order the CR gives. */
module Plugins {
  import opened GoTypes
  import opened NamedLists
  import opened RolloutManagers
  import opened Cluster
  import opened Operator

  function OwnPlugin(c: Config): Plugin {
    Named(OPENSHIFT_PLUGIN, PluginBody(c.pluginLocation, ""))
  }

  /** Sorted without duplicates; the operator's own plugin is there, and for every other name
      the first entry of the CR wins. */
  lemma TrafficPluginWinners(c: Config, spec: Spec, name: string)
    ensures StrictlySorted(TrafficPlugins(c, spec))
    ensures Find(TrafficPlugins(c, spec), name) ==
            if name == OPENSHIFT_PLUGIN then Some(OwnPlugin(c)) else Find(spec.trafficPlugins, name)
  {
    CanonicalIsCanonical([OwnPlugin(c)] + spec.trafficPlugins);
    assert ([OwnPlugin(c)] + spec.trafficPlugins)[1..] == spec.trafficPlugins;
  }

  lemma MetricPluginWinners(spec: Spec, name: string)
    ensures StrictlySorted(MetricPlugins(spec))
    ensures Find(MetricPlugins(spec), name) == Find(spec.metricPlugins, name)
  {
    CanonicalIsCanonical(spec.metricPlugins);
  }

  /** Every sorted duplicate-free list with these winners is the one the operator writes. */
  lemma TrafficPluginsAreUnique(c: Config, spec: Spec, l: seq<Plugin>)
    requires StrictlySorted(l)
    requires forall name ::
             Find(l, name) == if name == OPENSHIFT_PLUGIN then Some(OwnPlugin(c)) else Find(spec.trafficPlugins, name)
    ensures l == TrafficPlugins(c, spec)
  {
    forall name ensures Find(l, name) == Find(TrafficPlugins(c, spec), name) {
      TrafficPluginWinners(c, spec, name);
    }
    TrafficPluginWinners(c, spec, "");
    SortedListsAreUnique(l, TrafficPlugins(c, spec));
  }

  /** The same CR with its plugin lists in another order. */
  ghost predicate Reordered(a: Spec, b: Spec) {
    b == a.(trafficPlugins := b.trafficPlugins, metricPlugins := b.metricPlugins) &&
    multiset(a.trafficPlugins) == multiset(b.trafficPlugins) && DistinctNames(a.trafficPlugins) &&
    multiset(a.metricPlugins) == multiset(b.metricPlugins) && DistinctNames(a.metricPlugins)
  }

  lemma ReorderedPlugins(c: Config, a: Spec, b: Spec)
    requires Reordered(a, b)
    ensures PluginProblem(c, a) == PluginProblem(c, b)
    ensures PluginProblem(c, a).None? ==> TrafficPlugins(c, a) == TrafficPlugins(c, b)
    ensures MetricPlugins(a) == MetricPlugins(b)
  {
    PermutationInvariant(a.metricPlugins, b.metricPlugins);
    SameElements(a.trafficPlugins, b.trafficPlugins);
    if PluginProblem(c, a).None? {
      assert multiset([OwnPlugin(c)] + a.trafficPlugins) == multiset([OwnPlugin(c)] + b.trafficPlugins);
      PermutationInvariant([OwnPlugin(c)] + a.trafficPlugins, [OwnPlugin(c)] + b.trafficPlugins);
    }
  }

  /** Reordering distinct names changes nothing the stage does to the world: what would not
      have been written or restarted before the reordering is not after it. */
  lemma ReorderingIsInvisible(c: Config, w: World, r: Request, a: Spec, b: Spec)
    requires Reordered(a, b)
    ensures RunConfigMap(c, w, r, a) == RunConfigMap(c, w, r, b)
  {
    ReorderedPlugins(c, a, b);
    if PluginProblem(c, a).None? {
      assert Expected(c, r, a, ConfigMapStage) == Expected(c, r, b, ConfigMapStage);
      var live := Get(w, KeyOf(r, ConfigMapStage)).1;
      if live.Ok? {
        ReorderingRepairsAlike(c, Begin(w), r, a, b, live.value);
      }
    }
  }

  lemma ReorderingRepairsAlike(c: Config, w: World, r: Request, a: Spec, b: Spec, live: Obj)
    requires TrafficPlugins(c, a) == TrafficPlugins(c, b) && MetricPlugins(a) == MetricPlugins(b)
    ensures RepairConfig(c, w, r, a, live) == RepairConfig(c, w, r, b, live)
  {
    assert PluginData(c, a) == PluginData(c, b);
    assert PluginsDiffer(DataOf(live), c, a) == PluginsDiffer(DataOf(live), c, b);
  }
}
