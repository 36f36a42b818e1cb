/** What a stage leaves behind when nobody interferes: a settled object that the next run of
    the stage does not change, a reason that blocks it for good, and everything else untouched. */
module Settling {
  import opened GoTypes
  import opened NamedLists
  import opened RolloutManagers
  import opened Metadata
  import opened Deployments
  import opened Cluster
  import opened Operator

  // ----- Settled objects -----

  /** Reconciling the object again writes nothing, or writes what is already there. */
  predicate ObjectSettled(live: Obj, expected: Obj, spec: Spec) {
    NeedsUpdate(live, expected, spec) ==> Stored(Repaired(live, expected, spec)) == live
  }

  predicate KeySettled(objs: map<Key, Obj>, k: Key, expected: Obj, spec: Spec) {
    k in objs && ObjectSettled(objs[k], expected, spec)
  }

  predicate DeploymentSettled(live: Obj, desired: Deployment, spec: Spec) {
    DeploymentDiffers(live, desired, spec) ==>
      !SelectorsDiffer(live, desired, spec) && Stored(AsObj(Overwritten(AsDeployment(live), desired))) == live
  }

  predicate SecretSettled(c: Config, r: Request, spec: Spec, objs: map<Key, Obj>) {
    var k := KeyOf(r, SecretStage);
    if spec.skipNotificationSecret then k in objs ==> !ControlledBy(objs[k], r)
    else KeySettled(objs, k, Expected(c, r, spec, SecretStage), spec)
  }

  predicate ConfigSettled(c: Config, r: Request, spec: Spec, objs: map<Key, Obj>) {
    var k := KeyOf(r, ConfigMapStage);
    PluginProblem(c, spec).None? && k in objs && !PluginsDiffer(DataOf(objs[k]), c, spec)
  }

  predicate WorkloadSettled(c: Config, r: Request, spec: Spec, objs: map<Key, Obj>) {
    var k := KeyOf(r, DeploymentStage);
    Desired(c, spec).Ok? && k in objs && DeploymentSettled(objs[k], Desired(c, spec).value, spec)
  }

  predicate PolicySettled(c: Config, r: Request, spec: Spec, objs: map<Key, Obj>) {
    var k := KeyOf(r, NetworkPolicyStage);
    if spec.NetworkPolicyEnabled() then KeySettled(objs, k, Expected(c, r, spec, NetworkPolicyStage), spec)
    else k !in objs
  }

  predicate PlainSettled(c: Config, r: Request, spec: Spec, s: Stage, objs: map<Key, Obj>) {
    KeySettled(objs, KeyOf(r, s), Expected(c, r, spec, s), spec) &&
    (OppositeKey(r, s).Some? ==> OppositeKey(r, s).value !in objs)
  }

  predicate StageSettled(c: Config, r: Request, spec: Spec, s: Stage, objs: map<Key, Obj>) {
    match s
    case SecretStage => SecretSettled(c, r, spec, objs)
    case ConfigMapStage => ConfigSettled(c, r, spec, objs)
    case DeploymentStage => WorkloadSettled(c, r, spec, objs)
    case NetworkPolicyStage => PolicySettled(c, r, spec, objs)
    case _ => PlainSettled(c, r, spec, s, objs)
  }

  /** Why a stage fails although no API call does. */
  function Blocker(c: Config, r: Request, spec: Spec, s: Stage, objs: map<Key, Obj>): Option<Cause> {
    match s
    case ConfigMapStage =>
      if PluginProblem(c, spec).Some? then PluginProblem(c, spec)
      else if KeyOf(r, s) !in objs then None
      else DataProblem(DataOf(objs[KeyOf(r, s)]))
    case DeploymentStage =>
      if Desired(c, spec).Err? then Some(Desired(c, spec).error)
      else if KeyOf(r, s) in objs && UpdateRefused(objs[KeyOf(r, s)], Desired(c, spec).value, spec) then
        Some(ApiCause(Invalid))
      else None
    case _ => None
  }

  /** The immutable part of the selector that the normal form leaves out. */
  predicate HasExpressions(live: Obj) {
    AsDeployment(live).spec.selector.Some? && AsDeployment(live).spec.selector.value.matchExpressions != UNSET
  }

  /** The selectors differ as far as the normal form goes: the Deployment is recreated. */
  predicate SelectorsDiffer(live: Obj, desired: Deployment, spec: Spec) {
    NormalOrEmpty(AsDeployment(live), spec).spec.selector != NormalOrEmpty(desired, spec).spec.selector
  }

  /** A live Deployment that differs, would be overwritten, and has a selector with expressions:
      the server does not let the selector change. */
  predicate UpdateRefused(live: Obj, desired: Deployment, spec: Spec) {
    DeploymentDiffers(live, desired, spec) && !SelectorsDiffer(live, desired, spec) && HasExpressions(live)
  }

  function DataProblem(d: ConfigData): Option<Cause> {
    if Unmarshal(d, TRAFFIC_KEY).Err? then Some(DataUnparsable(Unmarshal(d, TRAFFIC_KEY).error))
    else if Unmarshal(d, METRIC_KEY).Err? then Some(DataUnparsable(Unmarshal(d, METRIC_KEY).error))
    else None
  }

  /** The keys a stage reads and writes. */
  function Footprint(r: Request, s: Stage): set<Key> {
    {KeyOf(r, s)} + (match OppositeKey(r, s) case Some(k) => {k} case None => {})
  }

  /** What a quiet stage may change: its own keys, pods of its namespace, and the queue. */
  ghost predicate Within(w: World, v: World, keys: set<Key>) {
    w.schedule == v.schedule && w.rms == v.rms && w.namespaces == v.namespaces && w.now == v.now &&
    w.queue <= v.queue && (forall k | k !in keys :: v.Lookup(k) == w.Lookup(k))
  }

  /** What is proved of each quiet stage run. */
  ghost predicate Lands(c: Config, r: Request, spec: Spec, s: Stage, w: World, v: World, o: Outcome) {
    Within(w, v, Footprint(r, s)) &&
    (o == Done ==> StageSettled(c, r, spec, s, v.objs)) &&
    (o.Failed? ==> v == w && Blocker(c, r, spec, s, w.objs) == Some(o.cause))
  }

  // ----- Storing is idempotent -----

  lemma StoredSpecTwice(s: DeploymentSpec)
    ensures StoredSpec(StoredSpec(s)) == StoredSpec(s)
  {
    var once := StoredPod(s.template.pod);
    var twice := StoredPod(once);
    forall i | 0 <= i < |once.containers| ensures twice.containers[i] == once.containers[i] {
      StoredContainerTwice(s.template.pod.containers[i]);
    }
    assert twice.containers == once.containers;
  }

  lemma StoredContainerTwice(k: Container)
    ensures StoredContainer(StoredContainer(k)) == StoredContainer(k)
  {
    assert StoredVars(StoredVars(k.env.Elems())) == StoredVars(k.env.Elems());
    assert StoredContainer(StoredContainer(k)).ports == StoredContainer(k).ports;
  }

  /** What is stored depends on the content only. */
  lemma StoredByContent(a: Meta, b: Meta)
    requires a.labels.Content() == b.labels.Content() && a.annotations.Content() == b.annotations.Content()
    requires a.owner == b.owner && a.rest == b.rest
    ensures StoredMeta(a) == StoredMeta(b)
  {
  }

  lemma OverrideTwice(live: map<string, string>, expected: map<string, string>)
    ensures (live + expected) + expected == live + expected
    ensures expected + expected == expected
  {
  }

  /** A second merge of the same expectation into what was stored changes nothing. */
  lemma MergeSettles(live: Meta, expected: Meta, spec: Spec)
    ensures StoredMeta(MergedMeta(StoredMeta(MergedMeta(live, expected, spec)), expected, spec))
         == StoredMeta(MergedMeta(live, expected, spec))
  {
    var once := MergedMeta(live, expected, spec);
    MergeContent(live, expected, spec);
    MergeContent(StoredMeta(once), expected, spec);
    OverrideTwice(live.labels.Content(), expected.labels.Content());
    OverrideTwice(live.annotations.Content(), expected.annotations.Content());
    StoredByContent(MergedMeta(StoredMeta(once), expected, spec), once);
  }

  lemma CreatedMetaSettles(expected: Meta, spec: Spec)
    ensures StoredMeta(MergedMeta(StoredMeta(expected), expected, spec)) == StoredMeta(expected)
  {
    MergeContent(StoredMeta(expected), expected, spec);
    OverrideTwice(map[], expected.labels.Content());
    OverrideTwice(map[], expected.annotations.Content());
    StoredByContent(MergedMeta(StoredMeta(expected), expected, spec), expected);
  }

  lemma BodySettles(live: Body, expected: Body)
    requires !expected.DeploymentBody? && !expected.ConfigBody?
    ensures StoredBody(RepairedBody(StoredBody(RepairedBody(live, expected)), expected)) ==
            StoredBody(RepairedBody(live, expected))
    ensures StoredBody(RepairedBody(StoredBody(expected), expected)) == StoredBody(expected)
  {
    match live
    case DeploymentBody(spec, ready) => StoredSpecTwice(spec);
    case _ =>
  }

  lemma RepairSettles(live: Obj, expected: Obj, spec: Spec)
    requires !expected.body.DeploymentBody? && !expected.body.ConfigBody?
    ensures ObjectSettled(Stored(Repaired(live, expected, spec)), expected, spec)
  {
    MergeSettles(live.meta, expected.meta, spec);
    BodySettles(live.body, expected.body);
  }

  lemma CreationSettles(expected: Obj, spec: Spec)
    requires !expected.body.DeploymentBody? && !expected.body.ConfigBody?
    ensures ObjectSettled(Stored(expected), expected, spec)
  {
    CreatedMetaSettles(expected.meta, spec);
    BodySettles(expected.body, expected.body);
  }

  // ----- One object -----

  lemma QuietUpdate(w: World, k: Key, live: Obj, obj: Obj)
    requires w.Quiet() && w.Lookup(k) == Some(live) && !k.kind.DeploymentKind?
    ensures Update(w, k, live, obj) == (SetObject(w, k, Some(Stored(obj)), true), None)
  {
  }

  /** The object after one pass over it. */
  function Driven(live: Obj, expected: Obj, spec: Spec): Obj {
    if NeedsUpdate(live, expected, spec) then Stored(Repaired(live, expected, spec)) else live
  }

  /** The object once it was ensured. */
  function Ensured(live: Option<Obj>, expected: Obj, spec: Spec): Obj {
    match live
    case None => Stored(expected)
    case Some(o) => Driven(o, expected, spec)
  }

  lemma QuietEnsure(w: World, k: Key, expected: Obj, spec: Spec)
    requires w.Quiet() && !k.kind.DeploymentKind?
    ensures Ensure(w, k, expected, spec) == (SetObject(w, k, Some(Ensured(w.Lookup(k), expected, spec)), true), Done)
  {
    if k in w.objs {
      QuietUpdate(w, k, w.objs[k], Repaired(w.objs[k], expected, spec));
      RewriteIsIdle(w, k, true);
    }
  }

  lemma EnsuredSettles(live: Option<Obj>, expected: Obj, spec: Spec)
    requires !expected.body.DeploymentBody? && !expected.body.ConfigBody?
    ensures ObjectSettled(Ensured(live, expected, spec), expected, spec)
  {
    match live
    case None => CreationSettles(expected, spec);
    case Some(o) => RepairSettles(o, expected, spec);
  }

  lemma PutSettles(w: World, k: Key, after: Obj, expected: Obj, spec: Spec)
    requires ObjectSettled(after, expected, spec)
    ensures Within(w, SetObject(w, k, Some(after), true), {k})
    ensures KeySettled(SetObject(w, k, Some(after), true).objs, k, expected, spec)
  {
  }

  lemma EnsureLands(w: World, k: Key, expected: Obj, spec: Spec)
    requires w.Quiet() && !k.kind.DeploymentKind? && !expected.body.DeploymentBody? && !expected.body.ConfigBody?
    ensures Ensure(w, k, expected, spec).1 == Done
    ensures Within(w, Ensure(w, k, expected, spec).0, {k})
    ensures KeySettled(Ensure(w, k, expected, spec).0.objs, k, expected, spec)
  {
    QuietEnsure(w, k, expected, spec);
    EnsuredSettles(w.Lookup(k), expected, spec);
    PutSettles(w, k, Ensured(w.Lookup(k), expected, spec), expected, spec);
  }

  /** Writing what is already there leaves the world as it is. */
  lemma RewriteIsIdle(w: World, k: Key, notified: bool)
    requires k in w.objs
    ensures SetObject(w, k, Some(w.objs[k]), notified) == w
  {
    assert w.objs[k := w.objs[k]] == w.objs;
  }

  lemma EnsureIsIdle(w: World, k: Key, expected: Obj, spec: Spec)
    requires w.Quiet() && !k.kind.DeploymentKind? && KeySettled(w.objs, k, expected, spec)
    ensures Ensure(w, k, expected, spec) == (w, Done)
  {
    RewriteIsIdle(w, k, true);
  }

  lemma DropOppositeLands(w: World, k: Key)
    requires w.Quiet()
    ensures DropOpposite(w, k).1 == Done && k !in DropOpposite(w, k).0.objs
    ensures Within(w, DropOpposite(w, k).0, {k})
    ensures k !in w.objs ==> DropOpposite(w, k).0 == w
  {
  }

  lemma EnsureScopedLands(w: World, opposite: Key, k: Key, expected: Obj, spec: Spec)
    requires w.Quiet() && opposite != k
    requires !k.kind.DeploymentKind? && !expected.body.DeploymentBody? && !expected.body.ConfigBody?
    ensures var (v, o) := EnsureScoped(w, opposite, k, expected, spec);
            o == Done && Within(w, v, {opposite, k}) && opposite !in v.objs && KeySettled(v.objs, k, expected, spec) &&
            (opposite !in w.objs && KeySettled(w.objs, k, expected, spec) ==> v == w)
  {
    DropOppositeLands(w, opposite);
    var w1 := DropOpposite(w, opposite).0;
    EnsureLands(w1, k, expected, spec);
    assert Ensure(w1, k, expected, spec).0.Lookup(opposite) == w1.Lookup(opposite);
    if opposite !in w.objs && KeySettled(w.objs, k, expected, spec) {
      EnsureIsIdle(w, k, expected, spec);
    }
  }

  lemma PlainLands(c: Config, r: Request, spec: Spec, s: Stage, w: World)
    requires w.Quiet() && !s.SecretStage? && !s.ConfigMapStage? && !s.DeploymentStage? && !s.NetworkPolicyStage?
    ensures RunObject(c, w, r, spec, s).1 == Done
    ensures Within(w, RunObject(c, w, r, spec, s).0, Footprint(r, s))
    ensures PlainSettled(c, r, spec, s, RunObject(c, w, r, spec, s).0.objs)
    ensures PlainSettled(c, r, spec, s, w.objs) ==> RunObject(c, w, r, spec, s).0 == w
  {
    var k, expected := KeyOf(r, s), Expected(c, r, spec, s);
    match OppositeKey(r, s)
    case None =>
      EnsureLands(w, k, expected, spec);
      if PlainSettled(c, r, spec, s, w.objs) {
        EnsureIsIdle(w, k, expected, spec);
      }
    case Some(opposite) =>
      EnsureScopedLands(w, opposite, k, expected, spec);
  }

  // ----- Secret and network policy -----

  lemma SecretLands(c: Config, r: Request, spec: Spec, w: World)
    requires w.Quiet()
    ensures RunSecret(c, w, r, spec).1 == Done
    ensures Within(w, RunSecret(c, w, r, spec).0, {KeyOf(r, SecretStage)})
    ensures SecretSettled(c, r, spec, RunSecret(c, w, r, spec).0.objs)
    ensures SecretSettled(c, r, spec, w.objs) ==> RunSecret(c, w, r, spec).0 == w
  {
    var k, expected := KeyOf(r, SecretStage), Expected(c, r, spec, SecretStage);
    if !spec.skipNotificationSecret {
      EnsureLands(w, k, expected, spec);
      if SecretSettled(c, r, spec, w.objs) {
        EnsureIsIdle(w, k, expected, spec);
      }
    }
  }

  lemma PolicyLands(c: Config, r: Request, spec: Spec, w: World)
    requires w.Quiet()
    ensures RunNetworkPolicy(c, w, r, spec).1 == Done
    ensures Within(w, RunNetworkPolicy(c, w, r, spec).0, {KeyOf(r, NetworkPolicyStage)})
    ensures PolicySettled(c, r, spec, RunNetworkPolicy(c, w, r, spec).0.objs)
    ensures PolicySettled(c, r, spec, w.objs) ==> RunNetworkPolicy(c, w, r, spec).0 == w
  {
    var k, expected := KeyOf(r, NetworkPolicyStage), Expected(c, r, spec, NetworkPolicyStage);
    if spec.NetworkPolicyEnabled() {
      EnsureLands(w, k, expected, spec);
      if PolicySettled(c, r, spec, w.objs) {
        EnsureIsIdle(w, k, expected, spec);
      }
    }
  }

  // ----- ConfigMap -----

  lemma {:induction false} DeletePodsLands(w: World, pods: seq<Pod>)
    requires w.Quiet()
    ensures DeletePods(w, pods).1 == Done
    ensures DeletePods(w, pods).0 == w.(pods := DeletePods(w, pods).0.pods)
    decreases |pods|
  {
    if pods != [] {
      if pods[0].deleting {
        DeletePodsLands(w, pods[1..]);
      } else {
        DeletePodsLands(DeletePod(w, pods[0].ns, pods[0].name).0, pods[1..]);
      }
    }
  }

  lemma RestartLands(w: World, r: Request)
    requires w.Quiet()
    ensures !RestartPods(w, r).1.Failed?
    ensures RestartPods(w, r).0 == w.(pods := RestartPods(w, r).0.pods)
  {
    var k := KeyOf(r, DeploymentStage);
    if k in w.objs && AsDeployment(w.objs[k]).spec.selector.Some? {
      DeletePodsLands(w, Selected(w.pods, r.ns, AsDeployment(w.objs[k]).spec.selector.value.matchLabels.Content()));
    }
  }

  /** Rewritten plugin data is what the next run looks for. */
  lemma PluginDataSettles(c: Config, spec: Spec, entries: map<string, Text>)
    ensures !PluginsDiffer(Data((entries - {OLD_METRIC_KEY}) + PluginData(c, spec)), c, spec)
  {
    assert |TRAFFIC_KEY| != |METRIC_KEY| && |OLD_METRIC_KEY| != |METRIC_KEY| && |OLD_METRIC_KEY| != |TRAFFIC_KEY|;
  }

  lemma CreatedPluginDataSettles(c: Config, spec: Spec)
    ensures !PluginsDiffer(Data(PluginData(c, spec)), c, spec)
  {
    PluginDataSettles(c, spec, map[]);
    assert (map[] - {OLD_METRIC_KEY}) + PluginData(c, spec) == PluginData(c, spec);
  }

  lemma RewriteConfigLands(w: World, r: Request, fixed: Obj)
    requires w.Quiet() && KeyOf(r, ConfigMapStage) in w.objs
    ensures var (v, o) := RewriteConfig(w, r, w.objs[KeyOf(r, ConfigMapStage)], fixed);
            !o.Failed? && Within(w, v, {KeyOf(r, ConfigMapStage)}) &&
            v.Lookup(KeyOf(r, ConfigMapStage)) == Some(Stored(fixed))
  {
    var w1 := SetObject(w, KeyOf(r, ConfigMapStage), Some(Stored(fixed)), true);
    RestartLands(w1, r);
  }

  lemma RepairConfigLands(c: Config, r: Request, spec: Spec, w: World, live: Obj)
    requires w.Quiet() && w.Lookup(KeyOf(r, ConfigMapStage)) == Some(live)
    ensures var (v, o) := RepairConfig(c, w, r, spec, live);
            Within(w, v, {KeyOf(r, ConfigMapStage)}) &&
            (o.Failed? ==> v == w && DataProblem(DataOf(live)) == Some(o.cause)) &&
            (o == Done ==> v.Lookup(KeyOf(r, ConfigMapStage)).Some? &&
                           !PluginsDiffer(DataOf(v.Lookup(KeyOf(r, ConfigMapStage)).value), c, spec))
  {
    var fixed := RepairedConfig(live, c, spec);
    PluginDataSettles(c, spec, Entries(DataOf(live)));
    RewriteConfigLands(w, r, fixed);
    StoredConfig(c, spec, fixed);
  }

  lemma StoredConfig(c: Config, spec: Spec, fixed: Obj)
    requires fixed.body.ConfigBody? && fixed.body.data.Data? && PluginData(c, spec).Keys <= fixed.body.data.entries.Keys
    ensures DataOf(Stored(fixed)) == DataOf(fixed)
  {
    assert TRAFFIC_KEY in PluginData(c, spec).Keys;
    assert TRAFFIC_KEY in fixed.body.data.entries;
  }

  lemma ConfigMapLands(c: Config, r: Request, spec: Spec, w: World)
    requires w.Quiet()
    ensures Lands(c, r, spec, ConfigMapStage, w, RunConfigMap(c, w, r, spec).0, RunConfigMap(c, w, r, spec).1)
  {
    if PluginProblem(c, spec).None? {
      if KeyOf(r, ConfigMapStage) in w.objs {
        RepairConfigLands(c, r, spec, w, w.objs[KeyOf(r, ConfigMapStage)]);
      } else {
        CreatedPluginDataSettles(c, spec);
        StoredConfig(c, spec, Expected(c, r, spec, ConfigMapStage));
      }
    }
  }

  lemma ConfigMapIsIdle(c: Config, r: Request, spec: Spec, w: World)
    requires w.Quiet()
    ensures ConfigSettled(c, r, spec, w.objs) ==> RunConfigMap(c, w, r, spec) == (w, Done)
    ensures Blocker(c, r, spec, ConfigMapStage, w.objs).Some? ==>
            RunConfigMap(c, w, r, spec) == (w, Failed(Blocker(c, r, spec, ConfigMapStage, w.objs).value))
  {
  }
}
