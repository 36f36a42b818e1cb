/** Quiet stages as patches: what a stage does to the world depends only on its own keys, the
    pods of its namespace and which RolloutManagers exist. */
module Patches {
  import opened GoTypes
  import opened RolloutManagers
  import opened Cluster
  import opened Operator
  import opened Settling
  import opened Convergence
  import Deployments
  import Metadata

  /** Objects put or removed, requests added, and pods (by namespace and name) deleted. */
  datatype Patch = Patch(objs: map<Key, Option<Obj>>, woken: set<Request>, gone: set<(string, string)>)

  const NOTHING := Patch(map[], {}, {})

  function Patched(objs: map<Key, Obj>, changes: map<Key, Option<Obj>>): map<Key, Obj> {
    map k | k in objs.Keys + changes.Keys && (k in changes ==> changes[k].Some?) ::
      if k in changes then changes[k].value else objs[k]
  }

  function Kept(pods: seq<Pod>, gone: set<(string, string)>): seq<Pod> {
    if pods == [] then []
    else if (pods[0].ns, pods[0].name) in gone then Kept(pods[1..], gone)
    else [pods[0]] + Kept(pods[1..], gone)
  }

  function Apply(w: World, p: Patch): World {
    w.(objs := Patched(w.objs, p.objs), pods := Kept(w.pods, p.gone), queue := w.queue + p.woken)
  }

  function Then(p: Patch, q: Patch): Patch {
    Patch(p.objs + q.objs, p.woken + q.woken, p.gone + q.gone)
  }

  lemma {:induction false} KeptNone(pods: seq<Pod>)
    ensures Kept(pods, {}) == pods
  {
    if pods != [] {
      KeptNone(pods[1..]);
      assert pods == [pods[0]] + pods[1..];
    }
  }

  lemma {:induction false} KeptTwice(pods: seq<Pod>, a: set<(string, string)>, b: set<(string, string)>)
    ensures Kept(Kept(pods, a), b) == Kept(pods, a + b)
  {
    if pods != [] {
      KeptTwice(pods[1..], a, b);
      if (pods[0].ns, pods[0].name) !in a {
        assert Kept(pods, a)[1..] == Kept(pods[1..], a);
      }
    }
  }

  lemma ApplyNothing(w: World)
    ensures Apply(w, NOTHING) == w
  {
    KeptNone(w.pods);
    assert Patched(w.objs, map[]) == w.objs;
  }

  lemma ApplyThen(w: World, p: Patch, q: Patch)
    ensures Apply(Apply(w, p), q) == Apply(w, Then(p, q))
  {
    KeptTwice(w.pods, p.gone, q.gone);
    assert Patched(Patched(w.objs, p.objs), q.objs) == Patched(w.objs, p.objs + q.objs);
  }

  /** Patches to different keys commute. */
  lemma ApplyCommutes(w: World, p: Patch, q: Patch)
    requires p.objs.Keys !! q.objs.Keys
    ensures Apply(Apply(w, p), q) == Apply(Apply(w, q), p)
  {
    ApplyThen(w, p, q);
    ApplyThen(w, q, p);
    ThenCommutes(p, q);
  }

  lemma ThenCommutes(p: Patch, q: Patch)
    requires p.objs.Keys !! q.objs.Keys
    ensures Then(p, q) == Then(q, p)
  {
    assert p.objs + q.objs == q.objs + p.objs;
  }

  // ----- What a stage sees -----

  function InNamespace(pods: seq<Pod>, ns: string): seq<Pod> {
    if pods == [] then []
    else if pods[0].ns == ns then [pods[0]] + InNamespace(pods[1..], ns)
    else InNamespace(pods[1..], ns)
  }

  lemma {:induction false} SelectedInNamespace(pods: seq<Pod>, ns: string, selector: map<string, string>)
    ensures Selected(InNamespace(pods, ns), ns, selector) == Selected(pods, ns, selector)
  {
    if pods != [] {
      SelectedInNamespace(pods[1..], ns, selector);
      if pods[0].ns == ns {
        assert InNamespace(pods, ns)[1..] == InNamespace(pods[1..], ns);
      }
    }
  }

  lemma {:induction false} SelectedAreInNamespace(pods: seq<Pod>, ns: string, selector: map<string, string>)
    ensures forall p | p in Selected(pods, ns, selector) :: p.ns == ns
  {
    if pods != [] {
      SelectedAreInNamespace(pods[1..], ns, selector);
    }
  }

  lemma {:induction false} KeptInNamespace(pods: seq<Pod>, gone: set<(string, string)>, ns: string)
    ensures InNamespace(Kept(pods, gone), ns) == Kept(InNamespace(pods, ns), gone)
    ensures (forall g | g in gone :: g.0 != ns) ==> InNamespace(Kept(pods, gone), ns) == InNamespace(pods, ns)
  {
    if pods != [] {
      KeptInNamespace(pods[1..], gone, ns);
      if (pods[0].ns, pods[0].name) !in gone {
        assert Kept(pods, gone)[1..] == Kept(pods[1..], gone);
      }
      if pods[0].ns == ns {
        assert InNamespace(pods, ns)[1..] == InNamespace(pods[1..], ns);
      }
    }
  }

  /** The two worlds look the same to a stage that reads these keys in this namespace. */
  ghost predicate Alike(ns: string, keys: set<Key>, w: World, u: World) {
    w.Quiet() && u.Quiet() && w.rms.Keys == u.rms.Keys && InNamespace(w.pods, ns) == InNamespace(u.pods, ns) &&
    forall k | k in keys :: w.Lookup(k) == u.Lookup(k)
  }

  ghost predicate Small(p: Patch, ns: string, keys: set<Key>) {
    p.objs.Keys <= keys && forall g | g in p.gone :: g.0 == ns
  }

  /** The same patch has been applied to both worlds. */
  ghost predicate Moves(w: World, v: World, u: World, x: World, p: Patch) {
    v == Apply(w, p) && x == Apply(u, p)
  }

  lemma AlikeAfter(ns: string, keys: set<Key>, w: World, u: World, p: Patch)
    requires Alike(ns, keys, w, u)
    ensures Alike(ns, keys, Apply(w, p), Apply(u, p))
  {
    KeptInNamespace(w.pods, p.gone, ns);
    KeptInNamespace(u.pods, p.gone, ns);
    forall k | k in keys ensures Apply(w, p).Lookup(k) == Apply(u, p).Lookup(k) {
      assert w.Lookup(k) == u.Lookup(k);
    }
  }

  lemma MovesThen(w: World, v: World, y: World, u: World, x: World, z: World, p: Patch, q: Patch)
    requires Moves(w, v, u, x, p) && Moves(v, y, x, z, q)
    ensures Moves(w, y, u, z, Then(p, q))
  {
    ApplyThen(w, p, q);
    ApplyThen(u, p, q);
  }

  lemma Stays(w: World, u: World)
    ensures Moves(w, w, u, u, NOTHING)
  {
    ApplyNothing(w);
    ApplyNothing(u);
  }

  lemma SetObjectIsPatch(w: World, k: Key, after: Option<Obj>)
    ensures SetObject(w, k, after, true) ==
            Apply(w, Patch(map[k := after], Woken(w.rms.Keys, k, w.Lookup(k), after, true), {}))
  {
    KeptNone(w.pods);
    assert SetObject(w, k, after, true).objs == Patched(w.objs, map[k := after]);
  }

  lemma SetObjectMoves(w: World, u: World, k: Key, after: Option<Obj>) returns (p: Patch)
    requires w.rms.Keys == u.rms.Keys && w.Lookup(k) == u.Lookup(k)
    ensures Moves(w, SetObject(w, k, after, true), u, SetObject(u, k, after, true), p)
    ensures p.objs.Keys == {k} && p.gone == {}
  {
    p := Patch(map[k := after], Woken(w.rms.Keys, k, w.Lookup(k), after, true), {});
    SetObjectIsPatch(w, k, after);
    SetObjectIsPatch(u, k, after);
  }

  // ----- Each stage -----

  lemma EnsureMoves(w: World, u: World, k: Key, expected: Obj, spec: Spec, ns: string, keys: set<Key>)
    returns (p: Patch)
    requires Alike(ns, keys, w, u) && k in keys && !k.kind.DeploymentKind?
    ensures Moves(w, Ensure(w, k, expected, spec).0, u, Ensure(u, k, expected, spec).0, p) && Small(p, ns, keys)
    ensures Ensure(w, k, expected, spec).1 == Ensure(u, k, expected, spec).1 == Done
  {
    assert w.Lookup(k) == u.Lookup(k);
    QuietEnsure(w, k, expected, spec);
    QuietEnsure(u, k, expected, spec);
    p := SetObjectMoves(w, u, k, Some(Ensured(w.Lookup(k), expected, spec)));
  }

  lemma DropMoves(w: World, u: World, k: Key, ns: string, keys: set<Key>) returns (p: Patch)
    requires Alike(ns, keys, w, u) && k in keys
    ensures Moves(w, DropOpposite(w, k).0, u, DropOpposite(u, k).0, p) && Small(p, ns, keys)
    ensures DropOpposite(w, k).1 == DropOpposite(u, k).1 == Done
  {
    assert w.Lookup(k) == u.Lookup(k);
    if k in w.objs {
      p := SetObjectMoves(w, u, k, None);
    } else {
      p := NOTHING;
      Stays(w, u);
    }
  }

  lemma ObjectMoves(c: Config, w: World, u: World, r: Request, spec: Spec, s: Stage) returns (p: Patch)
    requires !s.DeploymentStage?
    requires Alike(r.ns, Footprint(r, s), w, u)
    ensures Moves(w, RunObject(c, w, r, spec, s).0, u, RunObject(c, u, r, spec, s).0, p) &&
            Small(p, r.ns, Footprint(r, s))
    ensures RunObject(c, w, r, spec, s).1 == RunObject(c, u, r, spec, s).1 == Done
  {
    match OppositeKey(r, s)
    case None =>
      p := EnsureMoves(w, u, KeyOf(r, s), Expected(c, r, spec, s), spec, r.ns, Footprint(r, s));
    case Some(opposite) =>
      var q := DropMoves(w, u, opposite, r.ns, Footprint(r, s));
      AlikeAfter(r.ns, Footprint(r, s), w, u, q);
      var w1, u1 := DropOpposite(w, opposite).0, DropOpposite(u, opposite).0;
      p := EnsureMoves(w1, u1, KeyOf(r, s), Expected(c, r, spec, s), spec, r.ns, Footprint(r, s));
      MovesThen(w, w1, Ensure(w1, KeyOf(r, s), Expected(c, r, spec, s), spec).0,
                u, u1, Ensure(u1, KeyOf(r, s), Expected(c, r, spec, s), spec).0, q, p);
      p := Then(q, p);
  }

  lemma SecretMoves(c: Config, w: World, u: World, r: Request, spec: Spec) returns (p: Patch)
    requires Alike(r.ns, {KeyOf(r, SecretStage)}, w, u)
    ensures Moves(w, RunSecret(c, w, r, spec).0, u, RunSecret(c, u, r, spec).0, p) &&
            Small(p, r.ns, {KeyOf(r, SecretStage)})
    ensures RunSecret(c, w, r, spec).1 == RunSecret(c, u, r, spec).1
  {
    var k := KeyOf(r, SecretStage);
    assert w.Lookup(k) == u.Lookup(k);
    if !spec.skipNotificationSecret {
      p := EnsureMoves(w, u, k, Expected(c, r, spec, SecretStage), spec, r.ns, {k});
    } else if k in w.objs && ControlledBy(w.objs[k], r) {
      p := SetObjectMoves(w, u, k, None);
    } else {
      p := NOTHING;
      Stays(w, u);
    }
  }

  lemma PolicyMoves(c: Config, w: World, u: World, r: Request, spec: Spec) returns (p: Patch)
    requires Alike(r.ns, {KeyOf(r, NetworkPolicyStage)}, w, u)
    ensures Moves(w, RunNetworkPolicy(c, w, r, spec).0, u, RunNetworkPolicy(c, u, r, spec).0, p)
    ensures Small(p, r.ns, {KeyOf(r, NetworkPolicyStage)})
    ensures RunNetworkPolicy(c, w, r, spec).1 == RunNetworkPolicy(c, u, r, spec).1
  {
    var k := KeyOf(r, NetworkPolicyStage);
    assert w.Lookup(k) == u.Lookup(k);
    if spec.NetworkPolicyEnabled() {
      p := EnsureMoves(w, u, k, Expected(c, r, spec, NetworkPolicyStage), spec, r.ns, {k});
    } else if k in w.objs {
      p := SetObjectMoves(w, u, k, None);
    } else {
      p := NOTHING;
      Stays(w, u);
    }
  }

  // ----- Deployment -----

  lemma CreateDeploymentMoves(w: World, u: World, r: Request, desired: Deployments.Deployment) returns (p: Patch)
    requires Alike(r.ns, {KeyOf(r, DeploymentStage)}, w, u)
    ensures Moves(w, CreateDeployment(w, r, desired).0, u, CreateDeployment(u, r, desired).0, p)
    ensures Small(p, r.ns, {KeyOf(r, DeploymentStage)}) &&
            CreateDeployment(w, r, desired).1 == CreateDeployment(u, r, desired).1
  {
    var k := KeyOf(r, DeploymentStage);
    assert w.Lookup(k) == u.Lookup(k);
    if k in w.objs {
      p := NOTHING;
      Stays(w, u);
    } else {
      var owned := desired.(meta := desired.meta.(owner := Some(Metadata.Owner(true, r.name))));
      p := SetObjectMoves(w, u, k, Some(Stored(AsObj(owned))));
    }
  }

  lemma FixDeploymentMoves(w: World, u: World, r: Request, live: Obj, desired: Deployments.Deployment,
                           have: Deployments.Deployment, want: Deployments.Deployment) returns (p: Patch)
    requires Alike(r.ns, {KeyOf(r, DeploymentStage)}, w, u) && w.Lookup(KeyOf(r, DeploymentStage)) == Some(live)
    ensures Moves(w, FixDeployment(w, r, live, desired, have, want).0, u,
                  FixDeployment(u, r, live, desired, have, want).0, p)
    ensures Small(p, r.ns, {KeyOf(r, DeploymentStage)})
    ensures FixDeployment(w, r, live, desired, have, want).1 == FixDeployment(u, r, live, desired, have, want).1
  {
    var k := KeyOf(r, DeploymentStage);
    assert u.Lookup(k) == Some(live);
    if have.spec.selector != want.spec.selector {
      var q := SetObjectMoves(w, u, k, None);
      AlikeAfter(r.ns, {k}, w, u, q);
      var w1, u1 := SetObject(w, k, None, true), SetObject(u, k, None, true);
      p := CreateDeploymentMoves(w1, u1, r, desired);
      MovesThen(w, w1, CreateDeployment(w1, r, desired).0, u, u1, CreateDeployment(u1, r, desired).0, q, p);
      p := Then(q, p);
    } else {
      FixByUpdate(w, r, live, desired, have, want);
      FixByUpdate(u, r, live, desired, have, want);
      if Overwritable(r, live, desired) {
        p := SetObjectMoves(w, u, k, Some(Stored(AsObj(Deployments.Overwritten(AsDeployment(live), desired)))));
      } else {
        p := NOTHING;
        Stays(w, u);
      }
    }
  }

  lemma DeploymentMoves(c: Config, w: World, u: World, r: Request, spec: Spec) returns (p: Patch)
    requires Alike(r.ns, {KeyOf(r, DeploymentStage)}, w, u)
    ensures Moves(w, RunDeployment(c, w, r, spec).0, u, RunDeployment(c, u, r, spec).0, p)
    ensures Small(p, r.ns, {KeyOf(r, DeploymentStage)}) &&
            RunDeployment(c, w, r, spec).1 == RunDeployment(c, u, r, spec).1
  {
    var k := KeyOf(r, DeploymentStage);
    assert w.Lookup(k) == u.Lookup(k);
    p := NOTHING;
    Stays(w, u);
    if Deployments.Desired(c, spec).Ok? {
      var desired := Deployments.Desired(c, spec).value;
      if k !in w.objs {
        p := CreateDeploymentMoves(w, u, r, desired);
      } else if DeploymentDiffers(w.objs[k], desired, spec) {
        p := FixDeploymentMoves(w, u, r, w.objs[k], desired,
                                NormalOrEmpty(AsDeployment(w.objs[k]), spec), NormalOrEmpty(desired, spec));
      }
    }
  }

  // ----- ConfigMap -----

  /** The pods that a list of pods has deleted. */
  function Doomed(pods: seq<Pod>): set<(string, string)> {
    set p | p in pods && !p.deleting :: (p.ns, p.name)
  }

  lemma {:induction false} WithoutIsKept(pods: seq<Pod>, ns: string, name: string)
    ensures WithoutPod(pods, ns, name) == Kept(pods, {(ns, name)})
  {
    if pods != [] {
      WithoutIsKept(pods[1..], ns, name);
    }
  }

  lemma {:induction false} NobodyToDelete(pods: seq<Pod>, ns: string, name: string)
    requires !HasPod(pods, ns, name)
    ensures Kept(pods, {(ns, name)}) == pods
  {
    if pods != [] {
      assert pods[0] in pods;
      forall p | p in pods[1..] ensures !(p.ns == ns && p.name == name) {
        assert p in pods;
      }
      NobodyToDelete(pods[1..], ns, name);
      assert pods == [pods[0]] + pods[1..];
    }
  }

  lemma {:induction false} DeletePodsKeeps(w: World, pods: seq<Pod>)
    requires w.Quiet()
    ensures DeletePods(w, pods) == (w.(pods := Kept(w.pods, Doomed(pods))), Done)
    decreases |pods|
  {
    if pods == [] {
      KeptNone(w.pods);
      assert Doomed(pods) == {};
    } else if pods[0].deleting {
      DeletePodsKeeps(w, pods[1..]);
      assert Doomed(pods) == Doomed(pods[1..]);
    } else {
      var ns, name := pods[0].ns, pods[0].name;
      WithoutIsKept(w.pods, ns, name);
      if !HasPod(w.pods, ns, name) {
        NobodyToDelete(w.pods, ns, name);
      }
      var w1 := w.(pods := Kept(w.pods, {(ns, name)}));
      assert DeletePod(w, ns, name).0 == w1;
      DeletePodsKeeps(w1, pods[1..]);
      KeptTwice(w.pods, {(ns, name)}, Doomed(pods[1..]));
      assert Doomed(pods) == {(ns, name)} + Doomed(pods[1..]);
    }
  }

  lemma DeletePodsMoves(w: World, u: World, pods: seq<Pod>, ns: string) returns (p: Patch)
    requires w.Quiet() && u.Quiet() && forall q | q in pods :: q.ns == ns
    ensures Moves(w, DeletePods(w, pods).0, u, DeletePods(u, pods).0, p) && Small(p, ns, {})
    ensures DeletePods(w, pods).1 == DeletePods(u, pods).1
  {
    p := Patch(map[], {}, Doomed(pods));
    DeletePodsKeeps(w, pods);
    DeletePodsKeeps(u, pods);
    assert Patched(w.objs, map[]) == w.objs && Patched(u.objs, map[]) == u.objs;
  }

  lemma RestartMoves(w: World, u: World, r: Request) returns (p: Patch)
    requires Alike(r.ns, {KeyOf(r, DeploymentStage)}, w, u)
    ensures Moves(w, RestartPods(w, r).0, u, RestartPods(u, r).0, p) && Small(p, r.ns, {})
    ensures RestartPods(w, r).1 == RestartPods(u, r).1
  {
    var k := KeyOf(r, DeploymentStage);
    assert w.Lookup(k) == u.Lookup(k);
    p := NOTHING;
    Stays(w, u);
    if k in w.objs && AsDeployment(w.objs[k]).spec.selector.Some? {
      var selector := AsDeployment(w.objs[k]).spec.selector.value.matchLabels.Content();
      SelectedInNamespace(w.pods, r.ns, selector);
      SelectedInNamespace(u.pods, r.ns, selector);
      SelectedAreInNamespace(w.pods, r.ns, selector);
      p := DeletePodsMoves(w, u, Selected(w.pods, r.ns, selector), r.ns);
    }
  }

  /** The keys the ConfigMap stage reads; it writes only the first. */
  function ConfigKeys(r: Request): set<Key> {
    {KeyOf(r, ConfigMapStage), KeyOf(r, DeploymentStage)}
  }

  lemma RewriteMoves(w: World, u: World, r: Request, live: Obj, fixed: Obj) returns (p: Patch)
    requires Alike(r.ns, ConfigKeys(r), w, u) && w.Lookup(KeyOf(r, ConfigMapStage)) == Some(live)
    ensures Moves(w, RewriteConfig(w, r, live, fixed).0, u, RewriteConfig(u, r, live, fixed).0, p)
    ensures Small(p, r.ns, {KeyOf(r, ConfigMapStage)}) &&
            RewriteConfig(w, r, live, fixed).1 == RewriteConfig(u, r, live, fixed).1
  {
    var k := KeyOf(r, ConfigMapStage);
    assert u.Lookup(k) == w.Lookup(k);
    var q := SetObjectMoves(w, u, k, Some(Stored(fixed)));
    AlikeAfter(r.ns, ConfigKeys(r), w, u, q);
    var w1, u1 := SetObject(w, k, Some(Stored(fixed)), true), SetObject(u, k, Some(Stored(fixed)), true);
    QuietUpdate(w, k, live, fixed);
    QuietUpdate(u, k, live, fixed);
    p := RestartMoves(w1, u1, r);
    MovesThen(w, w1, RestartPods(w1, r).0, u, u1, RestartPods(u1, r).0, q, p);
    p := Then(q, p);
  }

  lemma RepairConfigMoves(c: Config, w: World, u: World, r: Request, spec: Spec, live: Obj) returns (p: Patch)
    requires Alike(r.ns, ConfigKeys(r), w, u) && w.Lookup(KeyOf(r, ConfigMapStage)) == Some(live)
    ensures Moves(w, RepairConfig(c, w, r, spec, live).0, u, RepairConfig(c, u, r, spec, live).0, p)
    ensures Small(p, r.ns, {KeyOf(r, ConfigMapStage)}) &&
            RepairConfig(c, w, r, spec, live).1 == RepairConfig(c, u, r, spec, live).1
  {
    var o := RepairByCase(c, r, spec, live);
    if o.Some? {
      p := NOTHING;
      Stays(w, u);
    } else {
      p := RewriteMoves(w, u, r, live, RepairedConfig(live, c, spec));
    }
  }

  /** Whether a live ConfigMap is rewritten, or else how the stage ends. */
  lemma RepairByCase(c: Config, r: Request, spec: Spec, live: Obj) returns (o: Option<Outcome>)
    ensures o.Some? ==> forall w :: RepairConfig(c, w, r, spec, live) == (w, o.value)
    ensures o.None? ==> forall w ::
            RepairConfig(c, w, r, spec, live) == RewriteConfig(w, r, live, RepairedConfig(live, c, spec))
  {
    var d := DataOf(live);
    o := if DataProblem(d).Some? then Some(Failed(DataProblem(d).value))
         else if !PluginsDiffer(d, c, spec) then Some(Done)
         else if d.NilData? then Some(Panicked)
         else None;
  }

  lemma ConfigMapMoves(c: Config, w: World, u: World, r: Request, spec: Spec) returns (p: Patch)
    requires Alike(r.ns, ConfigKeys(r), w, u)
    ensures Moves(w, RunConfigMap(c, w, r, spec).0, u, RunConfigMap(c, u, r, spec).0, p)
    ensures Small(p, r.ns, {KeyOf(r, ConfigMapStage)}) && RunConfigMap(c, w, r, spec).1 == RunConfigMap(c, u, r, spec).1
  {
    var k := KeyOf(r, ConfigMapStage);
    assert w.Lookup(k) == u.Lookup(k);
    p := NOTHING;
    Stays(w, u);
    if PluginProblem(c, spec).None? {
      if k in w.objs {
        p := RepairConfigMoves(c, w, u, r, spec, w.objs[k]);
      } else {
        p := SetObjectMoves(w, u, k, Some(Stored(Expected(c, r, spec, ConfigMapStage))));
      }
    }
  }

  /** The keys a stage reads. */
  function Reads(r: Request, s: Stage): set<Key> {
    if s.ConfigMapStage? then ConfigKeys(r) else Footprint(r, s)
  }

  /** Every stage does the same to any two worlds that look the same to it. */
  lemma StageMoves(c: Config, w: World, u: World, r: Request, spec: Spec, s: Stage) returns (p: Patch)
    requires Alike(r.ns, Reads(r, s), w, u)
    ensures Moves(w, RunStage(c, w, r, spec, s).0, u, RunStage(c, u, r, spec, s).0, p)
    ensures Small(p, r.ns, Footprint(r, s)) && RunStage(c, w, r, spec, s).1 == RunStage(c, u, r, spec, s).1
  {
    match s
    case SecretStage => p := SecretMoves(c, w, u, r, spec);
    case ConfigMapStage => p := ConfigMapMoves(c, w, u, r, spec);
    case DeploymentStage => p := DeploymentMoves(c, w, u, r, spec);
    case NetworkPolicyStage => p := PolicyMoves(c, w, u, r, spec);
    case _ => p := ObjectMoves(c, w, u, r, spec, s);
  }
}
