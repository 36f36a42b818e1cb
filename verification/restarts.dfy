/** When the ConfigMap's plugin lists are refused, left alone or rewritten, and which pods are
    restarted: exactly those that the live Deployment selects, and only after a rewrite. */
module Restarts {
  import opened GoTypes
  import opened RolloutManagers
  import opened Metadata
  import opened Cluster
  import opened Operator
  import opened Settling
  import opened Patches
  import opened Contents

  // ----- Which pods -----

  /** A pod of the namespace that has all these labels and is not going away yet. */
  predicate IsDue(ns: string, labels: map<string, string>, p: Pod) {
    p.ns == ns && !p.deleting && forall k | k in labels :: k in p.labels && p.labels[k] == labels[k]
  }

  lemma {:induction false} SelectedExactly(pods: seq<Pod>, ns: string, labels: map<string, string>, p: Pod)
    ensures p in Selected(pods, ns, labels) && !p.deleting <==> p in pods && IsDue(ns, labels, p)
  {
    if pods != [] {
      SelectedExactly(pods[1..], ns, labels, p);
      assert pods == [pods[0]] + pods[1..];
    }
  }

  lemma {:induction false} KeptExactly(pods: seq<Pod>, gone: set<(string, string)>, p: Pod)
    ensures p in Kept(pods, gone) <==> p in pods && (p.ns, p.name) !in gone
  {
    if pods != [] {
      KeptExactly(pods[1..], gone, p);
      assert pods == [pods[0]] + pods[1..];
    }
  }

  /** Of the pods, those are gone that are due, or bear the name of one that is. */
  ghost predicate Restarted(before: seq<Pod>, after: seq<Pod>, ns: string, labels: map<string, string>) {
    forall p :: p in after <==>
      p in before && !exists q :: q in before && IsDue(ns, labels, q) && q.ns == p.ns && q.name == p.name
  }

  lemma DeletedAreDue(w: World, ns: string, labels: map<string, string>)
    requires w.Quiet()
    ensures var (v, o) := DeletePods(w, Selected(w.pods, ns, labels));
            o == Done && v == w.(pods := v.pods) && Restarted(w.pods, v.pods, ns, labels)
  {
    var listed := Selected(w.pods, ns, labels);
    DeletePodsKeeps(w, listed);
    forall p ensures p in Kept(w.pods, Doomed(listed)) <==>
        p in w.pods && !exists q :: q in w.pods && IsDue(ns, labels, q) && q.ns == p.ns && q.name == p.name {
      KeptExactly(w.pods, Doomed(listed), p);
      DoomedExactly(w.pods, ns, labels, p);
    }
  }

  lemma DoomedExactly(pods: seq<Pod>, ns: string, labels: map<string, string>, p: Pod)
    ensures (p.ns, p.name) in Doomed(Selected(pods, ns, labels)) <==>
            exists q :: q in pods && IsDue(ns, labels, q) && q.ns == p.ns && q.name == p.name
  {
    if (p.ns, p.name) in Doomed(Selected(pods, ns, labels)) {
      var q :| q in Selected(pods, ns, labels) && !q.deleting && (q.ns, q.name) == (p.ns, p.name);
      SelectedExactly(pods, ns, labels, q);
    }
    if q :| q in pods && IsDue(ns, labels, q) && q.ns == p.ns && q.name == p.name {
      SelectedExactly(pods, ns, labels, q);
    }
  }

  // ----- When -----

  /** The lists the CR gives are refused, before any call is made. */
  lemma RefusedExactly(c: Config, w: World, r: Request, spec: Spec)
    ensures c.pluginLocation == "" ==> RunConfigMap(c, w, r, spec) == (w, Failed(LocationMissing))
    ensures c.pluginLocation != "" && (exists p :: p in spec.trafficPlugins && p.name == "argoproj-labs/openshift") ==>
            RunConfigMap(c, w, r, spec) == (w, Failed(PluginReserved))
    ensures RunConfigMap(c, w, r, spec).1 == Done ==>
            c.pluginLocation != "" && forall p | p in spec.trafficPlugins :: p.name != "argoproj-labs/openshift"
  {
  }

  /** The pods after a rewrite: restarted as the live Deployment selects them. */
  ghost predicate PodsRestarted(w: World, v: World, r: Request) {
    match w.Lookup(Key(DeploymentKind, r.ns, "argo-rollouts"))
    case None => v.pods == w.pods
    case Some(d) =>
      d.body.DeploymentBody? && d.body.spec.selector.Some? &&
      Restarted(w.pods, v.pods, r.ns, d.body.spec.selector.value.matchLabels.Content())
  }

  lemma RestartExactly(w: World, r: Request)
    requires w.Quiet() && RestartPods(w, r).1 == Done
    ensures var v := RestartPods(w, r).0; v == w.(pods := v.pods) && PodsRestarted(w, v, r)
  {
    var k := KeyOf(r, DeploymentStage);
    if k in w.objs {
      DeletedAreDue(w, r.ns, AsDeployment(w.objs[k]).spec.selector.value.matchLabels.Content());
    }
  }

  /** If the live ConfigMap gives the right lists nothing at all is changed, and otherwise it is
      rewritten and the pods are restarted. */
  ghost predicate RewrittenIfWrong(c: Config, spec: Spec, live: Obj, w: World, v: World, r: Request) {
    if HoldsPlugins(c, spec, DataOf(live)) then v == w else v.objs != w.objs && PodsRestarted(w, v, r)
  }

  /** A finished run on a live ConfigMap. */
  lemma RewrittenExactly(c: Config, w: World, r: Request, spec: Spec, live: Obj)
    requires w.Quiet() && w.Lookup(Key(ConfigMap, r.ns, "argo-rollouts-config")) == Some(live)
    requires RunConfigMap(c, w, r, spec).1 == Done
    ensures RewrittenIfWrong(c, spec, live, w, RunConfigMap(c, w, r, spec).0, r)
  {
    LiveIsRepaired(c, w, r, spec, live);
    RepairedExactly(c, w, r, spec, live);
  }

  lemma LiveIsRepaired(c: Config, w: World, r: Request, spec: Spec, live: Obj)
    requires w.Quiet() && w.Lookup(KeyOf(r, ConfigMapStage)) == Some(live) && RunConfigMap(c, w, r, spec).1 == Done
    ensures RunConfigMap(c, w, r, spec) == RepairConfig(c, w, r, spec, live)
  {
    assert Get(w, KeyOf(r, ConfigMapStage)) == (w, Ok(live));
  }

  lemma RepairedExactly(c: Config, w: World, r: Request, spec: Spec, live: Obj)
    requires w.Quiet() && w.Lookup(KeyOf(r, ConfigMapStage)) == Some(live) &&
             RepairConfig(c, w, r, spec, live).1 == Done
    ensures RewrittenIfWrong(c, spec, live, w, RepairConfig(c, w, r, spec, live).0, r)
  {
    PluginsAreFound(c, spec, DataOf(live));
    if PluginsDiffer(DataOf(live), c, spec) {
      RewritingRestarts(c, w, r, spec, live);
    }
  }

  lemma RewritingRestarts(c: Config, w: World, r: Request, spec: Spec, live: Obj)
    requires w.Quiet() && w.Lookup(KeyOf(r, ConfigMapStage)) == Some(live) && PluginsDiffer(DataOf(live), c, spec)
    requires RepairConfig(c, w, r, spec, live).1 == Done
    ensures var v := RepairConfig(c, w, r, spec, live).0; v.objs != w.objs && PodsRestarted(w, v, r)
  {
    var k, fixed := KeyOf(r, ConfigMapStage), RepairedConfig(live, c, spec);
    PluginDataSettles(c, spec, Entries(DataOf(live)));
    StoredConfig(c, spec, fixed);
    var w1 := SetObject(w, k, Some(Stored(fixed)), true);
    assert Update(w, k, live, fixed) == (w1, None);
    RestartExactly(w1, r);
    assert w1.Lookup(KeyOf(r, DeploymentStage)) == w.Lookup(KeyOf(r, DeploymentStage));
    assert w1.objs[k] != w.objs[k];
  }
}
