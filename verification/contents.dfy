/** What a finished reconcile delivers: the contents of every object it drives, spelled out. */
module Contents {
  import opened GoTypes
  import opened NamedLists
  import opened RolloutManagers
  import opened Metadata
  import opened Statuses
  import opened Cluster
  import opened Operator
  import opened Settling
  import opened Fixpoint
  import opened Progress
  import opened Traces
  import opened Scopes
  import opened Plugins
  import opened Patches
  import opened Cleanups
  import opened Workloads

  // ----- Labels -----

  /** Labels and annotations that are given first, those of the CR, and those given last. */
  predicate Labelled(spec: Spec, m: Meta, first: map<string, string>, last: map<string, string>) {
    var labels, annotations := m.labels.Content(), m.annotations.Content();
    (forall k | k in first :: k in labels && labels[k] == first[k]) &&
    (forall k | k in AskedLabels(spec) && k !in first :: k in labels && labels[k] == AskedLabels(spec)[k]) &&
    (forall k | k in last && k !in first && k !in AskedLabels(spec) :: k in labels && labels[k] == last[k]) &&
    (forall k | k in AskedAnnotations(spec) :: k in annotations && annotations[k] == AskedAnnotations(spec)[k])
  }

  const STANDARD: map<string, string> :=
    map["app.kubernetes.io/name" := "argo-rollouts", "app.kubernetes.io/part-of" := "argo-rollouts",
        "app.kubernetes.io/component" := "argo-rollouts"]

  const METRICS: map<string, string> :=
    map["app.kubernetes.io/name" := "argo-rollouts-metrics", "app.kubernetes.io/component" := "server"]

  function AggregateLabels(a: Aggregation): map<string, string> {
    map["app.kubernetes.io/component" := "aggregate-cluster-role", "app.kubernetes.io/part-of" := "argo-rollouts"] +
    match a
    case Admin => map["app.kubernetes.io/name" := "argo-rollouts-aggregate-to-admin",
                      "rbac.authorization.k8s.io/aggregate-to-admin" := "true"]
    case Edit => map["app.kubernetes.io/name" := "argo-rollouts-aggregate-to-edit",
                     "rbac.authorization.k8s.io/aggregate-to-edit" := "true"]
    case View => map["app.kubernetes.io/name" := "argo-rollouts-aggregate-to-view",
                     "rbac.authorization.k8s.io/aggregate-to-view" := "true"]
  }

  /** The labels of the object a stage drives: those it insists on, and those a CR may change. */
  function FirstLabels(c: Config, s: Stage): map<string, string> {
    match s
    case ServiceStage => METRICS
    case SecretStage => c.resourceLabels.Content()
    case ConfigMapStage => c.resourceLabels.Content()
    case _ => map[]
  }

  function LastLabels(s: Stage): map<string, string> {
    match s
    case AggregateStage(a) => AggregateLabels(a)
    case _ => STANDARD
  }

  // ----- Plugins -----

  /** The list the ConfigMap gives under the key. */
  predicate Lists(data: ConfigData, key: string, l: seq<Plugin>) {
    data.Data? && key in data.entries &&
    (data.entries[key] == Marshalled(l) || data.entries[key] == Foreign(Ok(Slice(l))))
  }

  ghost predicate IsTrafficList(c: Config, spec: Spec, l: seq<Plugin>) {
    StrictlySorted(l) &&
    forall name :: Find(l, name) ==
      if name == "argoproj-labs/openshift" then Some(Named(name, PluginBody(c.pluginLocation, "")))
      else Find(spec.trafficPlugins, name)
  }

  ghost predicate IsMetricList(spec: Spec, l: seq<Plugin>) {
    StrictlySorted(l) && forall name :: Find(l, name) == Find(spec.metricPlugins, name)
  }

  /** Both lists are there, and the key that earlier versions used is not. */
  ghost predicate HoldsPlugins(c: Config, spec: Spec, data: ConfigData) {
    (exists l :: Lists(data, "trafficRouterPlugins", l) && IsTrafficList(c, spec, l)) &&
    (exists l :: Lists(data, "metricProviderPlugins", l) && IsMetricList(spec, l)) &&
    (data.Data? ==> "metricPlugins" !in data.entries)
  }

  lemma MetricPluginsAreUnique(spec: Spec, l: seq<Plugin>)
    requires IsMetricList(spec, l)
    ensures l == MetricPlugins(spec)
  {
    forall name ensures Find(l, name) == Find(MetricPlugins(spec), name) {
      MetricPluginWinners(spec, name);
    }
    MetricPluginWinners(spec, "");
    SortedListsAreUnique(l, MetricPlugins(spec));
  }

  lemma OwnLists(c: Config, spec: Spec)
    ensures IsTrafficList(c, spec, TrafficPlugins(c, spec)) && IsMetricList(spec, MetricPlugins(spec))
  {
    TrafficPluginWinners(c, spec, "");
    MetricPluginWinners(spec, "");
    forall name
      ensures Find(TrafficPlugins(c, spec), name) ==
              if name == "argoproj-labs/openshift" then Some(OwnPlugin(c)) else Find(spec.trafficPlugins, name)
      ensures Find(MetricPlugins(spec), name) == Find(spec.metricPlugins, name)
    {
      TrafficPluginWinners(c, spec, name);
      MetricPluginWinners(spec, name);
    }
  }

  /** The operator finds nothing to rewrite exactly if the lists are there. */
  lemma PluginsAreFound(c: Config, spec: Spec, data: ConfigData)
    ensures !PluginsDiffer(data, c, spec) <==> HoldsPlugins(c, spec, data)
  {
    OwnLists(c, spec);
    if !PluginsDiffer(data, c, spec) {
      assert Lists(data, "trafficRouterPlugins", TrafficPlugins(c, spec));
      assert Lists(data, "metricProviderPlugins", MetricPlugins(spec));
    }
    if HoldsPlugins(c, spec, data) {
      var l :| Lists(data, "trafficRouterPlugins", l) && IsTrafficList(c, spec, l);
      TrafficPluginsAreUnique(c, spec, l);
      var m :| Lists(data, "metricProviderPlugins", m) && IsMetricList(spec, m);
      MetricPluginsAreUnique(spec, m);
    }
  }

  // ----- Each object -----

  function NameOf(a: Aggregation): string {
    match a
    case Admin => "argo-rollouts-aggregate-to-admin"
    case Edit => "argo-rollouts-aggregate-to-edit"
    case View => "argo-rollouts-aggregate-to-view"
  }

  function Rules(a: Aggregation): RuleSet {
    match a
    case Admin => AdminRules
    case Edit => EditRules
    case View => ViewRules
  }

  ghost predicate Has(c: Config, spec: Spec, s: Stage, objs: map<Key, Obj>, k: Key) {
    k in objs && Labelled(spec, objs[k].meta, FirstLabels(c, s), LastLabels(s))
  }

  ghost predicate Binds(r: Request, objs: map<Key, Obj>, k: Key) {
    k in objs && objs[k].body.BindingBody? &&
    objs[k].body.subjects == [Subject("ServiceAccount", "argo-rollouts", r.ns)]
  }

  /** What a finished stage leaves, whatever it found. */
  ghost predicate Delivered(c: Config, r: Request, spec: Spec, s: Stage, objs: map<Key, Obj>) {
    match s
    case ServiceAccountStage => Has(c, spec, s, objs, Key(ServiceAccount, r.ns, "argo-rollouts"))
    case RoleStage =>
      var k := Key(Role, r.ns, "argo-rollouts");
      Has(c, spec, s, objs, k) && objs[k].body == RulesBody(PolicyRules)
    case ClusterRoleStage =>
      var k := Key(ClusterRole, "", "argo-rollouts");
      Has(c, spec, s, objs, k) && objs[k].body == RulesBody(PolicyRules)
    case AggregateStage(a) =>
      var k := Key(ClusterRole, "", NameOf(a));
      Has(c, spec, s, objs, k) && objs[k].body == RulesBody(Rules(a))
    case RoleBindingStage =>
      var k := Key(RoleBinding, r.ns, "argo-rollouts");
      Has(c, spec, s, objs, k) && Binds(r, objs, k)
    case ClusterRoleBindingStage =>
      var k := Key(ClusterRoleBinding, "", "argo-rollouts");
      Has(c, spec, s, objs, k) && Binds(r, objs, k)
    case SecretStage =>
      var k := Key(Secret, r.ns, "argo-rollouts-notification-secret");
      if spec.skipNotificationSecret then
        k in objs ==> objs[k].meta.owner.None? || objs[k].meta.owner.value.name != r.name
      else Has(c, spec, s, objs, k)
    case ConfigMapStage =>
      var k := Key(ConfigMap, r.ns, "argo-rollouts-config");
      k in objs && objs[k].body.ConfigBody? && HoldsPlugins(c, spec, objs[k].body.data)
    case DeploymentStage => RunsIn(c, r, spec, objs)
    case ServiceStage =>
      var k := Key(Service, r.ns, "argo-rollouts-metrics");
      Has(c, spec, s, objs, k) && objs[k].body.ServiceBody? && objs[k].body.ports == METRICS_PORTS
    case NetworkPolicyStage =>
      var k := Key(NetworkPolicy, r.ns, "argo-rollouts-network-policy");
      if spec.networkPolicy == Some(Some(false)) then k !in objs
      else Has(c, spec, s, objs, k) && objs[k].body == NetworkPolicyBody(POLICY_PODS, POLICY_TYPES, POLICY_INGRESS)
  }

  // ----- One pass over an object -----

  /** Of the content, what a pass leaves whatever it found. */
  predicate BodyDelivered(after: Body, expected: Body) {
    match expected
    case RulesBody(_) => after == expected
    case BindingBody(_, subjects) => after.BindingBody? && after.subjects == subjects
    case ServiceBody(ports, _) => after.ServiceBody? && after.ports == ports
    case NetworkPolicyBody(_, _, _) => after == expected
    case _ => true
  }

  /** All that is expected of labels and annotations is there. */
  predicate MetaDelivered(after: Meta, expected: Meta) {
    (forall k | k in expected.labels.Content() ::
       k in after.labels.Content() && after.labels.Content()[k] == expected.labels.Content()[k]) &&
    (forall k | k in expected.annotations.Content() ::
       k in after.annotations.Content() && after.annotations.Content()[k] == expected.annotations.Content()[k])
  }

  lemma BodyIsDelivered(live: Option<Body>, expected: Body)
    ensures BodyDelivered(StoredBody(expected), expected)
    ensures live.Some? ==> BodyDelivered(StoredBody(RepairedBody(live.value, expected)), expected)
  {
  }

  lemma MetaIsDelivered(live: Meta, expected: Meta, spec: Spec)
    ensures MetaDelivered(StoredMeta(expected), expected) &&
            MetaDelivered(StoredMeta(MergedMeta(live, expected, spec)), expected)
    ensures MetaMatches(live, expected, spec) ==> MetaDelivered(live, expected)
  {
    MergeContent(live, expected, spec);
  }

  lemma EnsuredDelivers(live: Option<Obj>, expected: Obj, spec: Spec)
    ensures var after := Ensured(live, expected, spec);
            BodyDelivered(after.body, expected.body) && MetaDelivered(after.meta, expected.meta)
  {
    BodyIsDelivered(if live.Some? then Some(live.value.body) else None, expected.body);
    MetaIsDelivered(if live.Some? then live.value.meta else BARE_META, expected.meta, spec);
  }

  /** What a finished pass leaves is made of what its Get found, whatever outsiders do meanwhile and
      whichever calls fail. */
  lemma EnsureLeavesEnsured(w: World, k: Key, expected: Obj, spec: Spec)
    requires Ensure(w, k, expected, spec).1 == Done
    ensures var live := Get(w, k).1;
            Ensure(w, k, expected, spec).0.Lookup(k) ==
            Some(Ensured(if live.Ok? then Some(live.value) else None, expected, spec))
  {
    var (w1, live) := Get(w, k);
    if live.Err? {
      CreateLeaves(w1, k, expected);
    } else if NeedsUpdate(live.value, expected, spec) {
      UpdateLeaves(w1, k, live.value, Repaired(live.value, expected, spec));
    }
  }

  lemma CreateLeaves(w: World, k: Key, obj: Obj)
    ensures Create(w, k, obj).1.None? ==> Create(w, k, obj).0.Lookup(k) == Some(Stored(obj))
  {
  }

  lemma UpdateLeaves(w: World, k: Key, fetched: Obj, obj: Obj)
    ensures Update(w, k, fetched, obj).1.None? ==> Update(w, k, fetched, obj).0.Lookup(k) == Some(Stored(obj))
  {
  }

  /** So it is there and has what is expected. */
  lemma EnsureDelivers(w: World, k: Key, expected: Obj, spec: Spec)
    requires Ensure(w, k, expected, spec).1 == Done
    ensures var objs := Ensure(w, k, expected, spec).0.objs;
            k in objs && BodyDelivered(objs[k].body, expected.body) && MetaDelivered(objs[k].meta, expected.meta)
  {
    var live := Get(w, k).1;
    EnsureLeavesEnsured(w, k, expected, spec);
    EnsuredDelivers(if live.Ok? then Some(live.value) else None, expected, spec);
  }

  lemma LabelsOfStage(c: Config, r: Request, spec: Spec, s: Stage, m: Meta)
    requires !s.DeploymentStage? && MetaDelivered(m, Expected(c, r, spec, s).meta)
    ensures Labelled(spec, m, FirstLabels(c, s), LastLabels(s))
  {
    match s
    case AggregateStage(a) => LabelsOfAggregate(spec, a, m);
    case ServiceStage => LabelsOfService(r, spec, m);
    case SecretStage => LabelsOfLabelled(c, OwnedMeta(r, spec), spec, m);
    case ConfigMapStage => LabelsOfLabelled(c, DefaultMeta(spec), spec, m);
    case _ => LabelsOfDefault(spec, m);
  }

  lemma LabelsOfDefault(spec: Spec, m: Meta)
    requires MetaDelivered(m, DefaultMeta(spec))
    ensures Labelled(spec, m, map[], STANDARD)
  {
  }

  lemma LabelsOfService(r: Request, spec: Spec, m: Meta)
    requires MetaDelivered(m, ServiceMeta(r, spec))
    ensures Labelled(spec, m, METRICS, STANDARD)
  {
  }

  lemma LabelsOfLabelled(c: Config, own: Meta, spec: Spec, m: Meta)
    requires own == DefaultMeta(spec).(owner := own.owner) && MetaDelivered(m, LabeledMeta(c, own))
    ensures Labelled(spec, m, c.resourceLabels.Content(), STANDARD)
  {
  }

  lemma LabelsOfAggregate(spec: Spec, a: Aggregation, m: Meta)
    requires MetaDelivered(m, ExpectedAggregateMeta(a, spec))
    ensures Labelled(spec, m, map[], AggregateLabels(a))
  {
    AggregatesByName();
    PrefixesByName();
    var expected := ExpectedAggregateMeta(a, spec);
    assert AggregateName(a) == NameOf(a);
    assert forall k | k in AggregateLabels(a) && k !in spec.ExtraLabels() ::
        k in expected.labels.Content() && expected.labels.Content()[k] == AggregateLabels(a)[k];
  }

  lemma PrefixesByName()
    ensures RBAC_PREFIX + AggregationName(Admin) == "rbac.authorization.k8s.io/aggregate-to-admin"
    ensures RBAC_PREFIX + AggregationName(Edit) == "rbac.authorization.k8s.io/aggregate-to-edit"
    ensures RBAC_PREFIX + AggregationName(View) == "rbac.authorization.k8s.io/aggregate-to-view"
  {
    PrefixByName("aggregate-to-admin", "rbac.authorization.k8s.io/aggregate-to-admin");
    PrefixByName("aggregate-to-edit", "rbac.authorization.k8s.io/aggregate-to-edit");
    PrefixByName("aggregate-to-view", "rbac.authorization.k8s.io/aggregate-to-view");
  }

  lemma PrefixByName(name: string, whole: string)
    requires |whole| > |RBAC_PREFIX| && whole[..26] == RBAC_PREFIX && whole[26..] == name
    ensures RBAC_PREFIX + name == whole
  {
  }

  lemma EnsuredStageDelivers(c: Config, w: World, r: Request, spec: Spec, s: Stage)
    requires !s.DeploymentStage? && !s.ConfigMapStage?
    requires s.SecretStage? ==> !spec.skipNotificationSecret
    requires s.NetworkPolicyStage? ==> spec.networkPolicy != Some(Some(false))
    requires Ensure(w, KeyOf(r, s), Expected(c, r, spec, s), spec).1 == Done
    ensures Delivered(c, r, spec, s, Ensure(w, KeyOf(r, s), Expected(c, r, spec, s), spec).0.objs)
  {
    var k, expected := KeyOf(r, s), Expected(c, r, spec, s);
    EnsureDelivers(w, k, expected, spec);
    var objs := Ensure(w, k, expected, spec).0.objs;
    LabelsOfStage(c, r, spec, s, objs[k].meta);
    DeliveredByParts(c, r, spec, s, objs);
  }

  lemma DeliveredByParts(c: Config, r: Request, spec: Spec, s: Stage, objs: map<Key, Obj>)
    requires !s.DeploymentStage? && !s.ConfigMapStage?
    requires s.SecretStage? ==> !spec.skipNotificationSecret
    requires s.NetworkPolicyStage? ==> spec.networkPolicy != Some(Some(false))
    requires Has(c, spec, s, objs, KeyOf(r, s)) && BodyDelivered(objs[KeyOf(r, s)].body, Expected(c, r, spec, s).body)
    ensures Delivered(c, r, spec, s, objs)
  {
    if s.AggregateStage? {
      AggregatesByName();
    }
  }

  // ----- Each stage -----

  lemma HeldPluginsAreDelivered(c: Config, r: Request, spec: Spec, objs: map<Key, Obj>)
    requires KeyOf(r, ConfigMapStage) in objs && !PluginsDiffer(DataOf(objs[KeyOf(r, ConfigMapStage)]), c, spec)
    ensures Delivered(c, r, spec, ConfigMapStage, objs)
  {
    PluginsAreFound(c, spec, DataOf(objs[KeyOf(r, ConfigMapStage)]));
  }

  lemma RestartKeepsObjects(c: Config, w: World, r: Request, spec: Spec)
    requires Calm(w)
    ensures Keeps(w, RestartPods(w, r).0, {})
  {
    RestartCalls(c, w, r, spec, {});
    PlayKeeps(w, RestartLog(w, r), {});
  }

  lemma RepairedConfigDelivers(c: Config, w: World, r: Request, spec: Spec, live: Obj)
    requires Calm(w) && w.Lookup(KeyOf(r, ConfigMapStage)) == Some(live) && RepairConfig(c, w, r, spec, live).1 == Done
    ensures Delivered(c, r, spec, ConfigMapStage, RepairConfig(c, w, r, spec, live).0.objs)
  {
    var k := KeyOf(r, ConfigMapStage);
    if PluginsDiffer(DataOf(live), c, spec) {
      var fixed := RepairedConfig(live, c, spec);
      PluginDataSettles(c, spec, Entries(DataOf(live)));
      StoredConfig(c, spec, fixed);
      var w1 := Update(w, k, live, fixed).0;
      CalmBegin(w);
      RestartKeepsObjects(c, w1, r, spec);
      assert RestartPods(w1, r).0.Lookup(k) == w1.Lookup(k);
    }
    HeldPluginsAreDelivered(c, r, spec, RepairConfig(c, w, r, spec, live).0.objs);
  }

  lemma ConfigMapDelivers(c: Config, w: World, r: Request, spec: Spec)
    requires Calm(w) && RunConfigMap(c, w, r, spec).1 == Done
    ensures Delivered(c, r, spec, ConfigMapStage, RunConfigMap(c, w, r, spec).0.objs)
  {
    var k := KeyOf(r, ConfigMapStage);
    var (w1, live) := Get(w, k);
    CalmBegin(w);
    if live == Err(NotFound) {
      CreatedPluginDataSettles(c, spec);
      StoredConfig(c, spec, Expected(c, r, spec, ConfigMapStage));
      HeldPluginsAreDelivered(c, r, spec, RunConfigMap(c, w, r, spec).0.objs);
    } else {
      RepairedConfigDelivers(c, w1, r, spec, live.value);
    }
  }

  lemma SkippedSecretDelivers(c: Config, w: World, r: Request, spec: Spec)
    requires Calm(w) && spec.skipNotificationSecret && SkipSecret(w, r).1 == Done
    ensures Delivered(c, r, spec, SecretStage, SkipSecret(w, r).0.objs)
  {
    CalmBegin(w);
    CalmBegin(Begin(w));
  }

  lemma DisabledPolicyDelivers(c: Config, w: World, r: Request, spec: Spec)
    requires Calm(w) && spec.networkPolicy == Some(Some(false)) && DeleteNetworkPolicy(w, r).1 == Done
    ensures Delivered(c, r, spec, NetworkPolicyStage, DeleteNetworkPolicy(w, r).0.objs)
  {
    CalmBegin(w);
    CalmBegin(Begin(w));
  }

  /** Whatever a stage found and whichever calls failed before: when it finishes, it has delivered. */
  lemma StageDelivers(c: Config, w: World, r: Request, spec: Spec, s: Stage)
    requires Calm(w) && RunStage(c, w, r, spec, s).1 == Done
    ensures Delivered(c, r, spec, s, RunStage(c, w, r, spec, s).0.objs)
  {
    match s
    case ConfigMapStage => ConfigMapDelivers(c, w, r, spec);
    case DeploymentStage => FinishedStageRuns(c, w, r, spec);
    case SecretStage =>
      if spec.skipNotificationSecret {
        SkippedSecretDelivers(c, w, r, spec);
      } else {
        EnsuredStageDelivers(c, w, r, spec, s);
      }
    case NetworkPolicyStage =>
      if spec.networkPolicy == Some(Some(false)) {
        DisabledPolicyDelivers(c, w, r, spec);
      } else {
        EnsuredStageDelivers(c, w, r, spec, s);
      }
    case _ => ObjectDelivers(c, w, r, spec, s);
  }

  lemma ObjectDelivers(c: Config, w: World, r: Request, spec: Spec, s: Stage)
    requires !s.SecretStage? && !s.ConfigMapStage? && !s.DeploymentStage? && !s.NetworkPolicyStage?
    requires RunObject(c, w, r, spec, s).1 == Done
    ensures Delivered(c, r, spec, s, RunObject(c, w, r, spec, s).0.objs)
  {
    match OppositeKey(r, s)
    case None => EnsuredStageDelivers(c, w, r, spec, s);
    case Some(opposite) => EnsuredStageDelivers(c, DropOpposite(w, opposite).0, r, spec, s);
  }

  // ----- The whole reconcile -----

  lemma DeliveredStays(c: Config, r: Request, spec: Spec, s: Stage, u: World, v: World)
    requires Delivered(c, r, spec, s, u.objs) && forall k | k in Footprint(r, s) :: v.Lookup(k) == u.Lookup(k)
    ensures Delivered(c, r, spec, s, v.objs)
  {
    assert KeyOf(r, s) in Footprint(r, s);
    assert v.Lookup(KeyOf(r, s)) == u.Lookup(KeyOf(r, s));
    if s.AggregateStage? {
      AggregatesByName();
    }
  }

  lemma {:induction false} StagesDeliver(c: Config, w: World, r: Request, spec: Spec, stages: seq<Stage>)
    requires Calm(w) && Disjoint(r, stages) && RunStages(c, w, r, spec, stages).1 == Done
    ensures forall s | s in stages :: Delivered(c, r, spec, s, RunStages(c, w, r, spec, stages).0.objs)
    decreases |stages|
  {
    if stages != [] {
      var w1 := RunStage(c, w, r, spec, stages[0]).0;
      var v := RunStages(c, w1, r, spec, stages[1..]).0;
      StageDelivers(c, w, r, spec, stages[0]);
      StageKeeps(c, w, r, spec, stages[0]);
      HeadIsSeparate(r, stages);
      StagesDeliver(c, w1, r, spec, stages[1..]);
      StagesKeep(c, w1, r, spec, stages[1..]);
      DeliveredStays(c, r, spec, stages[0], w1, v);
    }
  }

  /** What is driven depends on the scope only. */
  predicate InScope(spec: Spec, s: Stage) {
    match s
    case RoleStage => spec.namespaceScoped
    case RoleBindingStage => spec.namespaceScoped
    case ClusterRoleStage => !spec.namespaceScoped
    case ClusterRoleBindingStage => !spec.namespaceScoped
    case _ => true
  }

  lemma InScopeIsInPipeline(spec: Spec, s: Stage)
    requires InScope(spec, s)
    ensures s in Pipeline(spec)
  {
    assert Pipeline(spec)[Rank(s)] == s;
  }

  /** After a successful reconcile of an admitted RolloutManager, whatever it found and whichever
      calls failed without failing the reconcile: every object in its scope has been delivered. */
  lemma ReconcileDelivers(c: Config, w: World, r: Request)
    requires Calm(w) && r in w.rms && w.NamespaceIsLive(r.ns) && Verdict(c, w.rms, r).None?
    requires Reconcile(c, w, r).1 == Done
    ensures forall s | InScope(w.rms[r].spec, s) :: Delivered(c, r, w.rms[r].spec, s, Reconcile(c, w, r).0.objs)
  {
    var rm := w.rms[r];
    ReachesManager(c, w, r);
    var u := AtGates(w);
    var (m, res, o) := ReconcileManager(c, u, r, rm);
    SuccessRanStages(c, u, r, rm);
    WriteKeepsObjects(m, r, rm, res, o);
    PipelineIsDisjoint(r, rm.spec);
    StagesDeliver(c, StagesStart(w, rm.spec), r, rm.spec, Pipeline(rm.spec));
    forall s | InScope(rm.spec, s) ensures Delivered(c, r, rm.spec, s, Reconcile(c, w, r).0.objs) {
      InScopeIsInPipeline(rm.spec, s);
    }
  }

  lemma WriteKeepsObjects(w: World, r: Request, rm: RolloutManager, res: StatusResult, o: Outcome)
    ensures WriteResult(w, r, rm, res, o).1 == Done ==> o == Done
    ensures Calm(w) ==> WriteResult(w, r, rm, res, o).0.objs == w.objs
  {
    if Calm(w) {
      CalmBegin(w);
    }
  }

  // ----- Up to which stage -----

  /** The order in which objects are driven. */
  function Order(spec: Spec): seq<Stage> {
    var role := if spec.namespaceScoped then RoleStage else ClusterRoleStage;
    var binding := if spec.namespaceScoped then RoleBindingStage else ClusterRoleBindingStage;
    [ServiceAccountStage, role] + [AggregateStage(Admin), AggregateStage(Edit), AggregateStage(View)] +
    [binding, SecretStage, ConfigMapStage, DeploymentStage, ServiceStage, NetworkPolicyStage]
  }

  /** All before the stage is delivered, nothing after it is touched. */
  ghost predicate StoppedAt(c: Config, r: Request, spec: Spec, stages: seq<Stage>, w: World, v: World, n: nat) {
    (forall i | 0 <= i < n && i < |stages| :: Delivered(c, r, spec, stages[i], v.objs)) &&
    (forall i, k | n < i < |stages| && k in Footprint(r, stages[i]) :: v.Lookup(k) == w.Lookup(k))
  }

  lemma {:induction false} StagesStop(c: Config, w: World, r: Request, spec: Spec, stages: seq<Stage>) returns (n: nat)
    requires Calm(w) && Disjoint(r, stages)
    ensures StoppedAt(c, r, spec, stages, w, RunStages(c, w, r, spec, stages).0, n) && n <= |stages|
    ensures RunStages(c, w, r, spec, stages).1 == Done <==> n == |stages|
    decreases |stages|
  {
    n := 0;
    if stages != [] {
      var (w1, o) := RunStage(c, w, r, spec, stages[0]);
      StageKeeps(c, w, r, spec, stages[0]);
      HeadIsSeparate(r, stages);
      if o == Done {
        var m := StagesStop(c, w1, r, spec, stages[1..]);
        n := m + 1;
        StopsLater(c, w, w1, r, spec, stages, m);
      } else {
        forall i, k | 0 < i < |stages| && k in Footprint(r, stages[i]) ensures w1.Lookup(k) == w.Lookup(k) {
          assert Footprint(r, stages[0]) !! Footprint(r, stages[i]);
        }
      }
    }
  }

  lemma StopsLater(c: Config, w: World, w1: World, r: Request, spec: Spec, stages: seq<Stage>, m: nat)
    requires Calm(w) && Disjoint(r, stages) && stages != [] && RunStage(c, w, r, spec, stages[0]) == (w1, Done)
    requires Calm(w1) && Keeps(w, w1, Footprint(r, stages[0]))
    requires StoppedAt(c, r, spec, stages[1..], w1, RunStages(c, w1, r, spec, stages[1..]).0, m)
    ensures StoppedAt(c, r, spec, stages, w, RunStages(c, w1, r, spec, stages[1..]).0, m + 1)
  {
    var v := RunStages(c, w1, r, spec, stages[1..]).0;
    StageDelivers(c, w, r, spec, stages[0]);
    StagesKeep(c, w1, r, spec, stages[1..]);
    HeadIsSeparate(r, stages);
    DeliveredStays(c, r, spec, stages[0], w1, v);
    forall i | 0 <= i < m + 1 && i < |stages| ensures Delivered(c, r, spec, stages[i], v.objs) {
      assert i > 0 ==> stages[1..][i - 1] == stages[i];
    }
    forall i, k | m + 1 < i < |stages| && k in Footprint(r, stages[i]) ensures v.Lookup(k) == w.Lookup(k) {
      assert stages[1..][i - 1] == stages[i] && Footprint(r, stages[0]) !! Footprint(r, stages[i]);
    }
  }

  lemma PipelineIsInOrder(spec: Spec)
    ensures Pipeline(spec) == Order(spec)
  {
  }

  /** However the stages of an admitted RolloutManager end: they stopped at one of eleven in this
      order, what comes before it is delivered, and what comes after it is as it was. */
  lemma StagesStopInOrder(c: Config, w: World, r: Request, rm: RolloutManager) returns (n: nat)
    requires Calm(w)
    ensures StoppedAt(c, r, rm.spec, Order(rm.spec), w, Staged(c, w, r, rm).0, n)
    ensures n <= 11 && (Staged(c, w, r, rm).1 == Done <==> n == 11)
  {
    PipelineIsDisjoint(r, rm.spec);
    PipelineIsInOrder(rm.spec);
    n := StagesStop(c, w, r, rm.spec, Pipeline(rm.spec));
  }

  // ----- What is not repaired -----

  /** What a pass leaves as it found it, and what it puts there if it finds nothing: the owner, a
      binding's role reference, and a Service's selector. */
  ghost predicate Originates(r: Request, s: Stage, before: Option<Obj>, after: Obj) {
    after.meta.owner == (match before case Some(o) => o.meta.owner case None => FirstOwner(r, s)) &&
    (s.RoleBindingStage? || s.ClusterRoleBindingStage? ==>
       after.body.BindingBody? &&
       after.body.roleRef == if before.Some? && before.value.body.BindingBody? then before.value.body.roleRef
                             else RoleRef(if s.RoleBindingStage? then "Role" else "ClusterRole", "argo-rollouts")) &&
    (s.ServiceStage? ==>
       after.body.ServiceBody? &&
       after.body.selector == if before.Some? && before.value.body.ServiceBody? then before.value.body.selector
                              else METRICS_SELECTOR)
  }

  /** The RolloutManager owns what is created in its namespace, except the ConfigMap. */
  function FirstOwner(r: Request, s: Stage): Option<Owner> {
    match s
    case ClusterRoleStage => None
    case AggregateStage(_) => None
    case ClusterRoleBindingStage => None
    case ConfigMapStage => None
    case _ => Some(Owner(true, r.name))
  }

  /** The same of any expected content. */
  predicate BodyOriginates(before: Option<Body>, expected: Body, after: Body) {
    (expected.BindingBody? ==>
       after.BindingBody? &&
       after.roleRef == if before.Some? && before.value.BindingBody? then before.value.roleRef else expected.roleRef) &&
    (expected.ServiceBody? ==>
       after.ServiceBody? &&
       after.selector == if before.Some? && before.value.ServiceBody? then before.value.selector else expected.selector)
  }

  function BodyOf(o: Option<Obj>): Option<Body> {
    match o
    case None => None
    case Some(obj) => Some(obj.body)
  }

  lemma BodyIsOriginated(live: Body, expected: Body)
    ensures BodyOriginates(Some(live), expected, StoredBody(RepairedBody(live, expected)))
    ensures BodyOriginates(None, expected, StoredBody(expected))
    ensures RepairedBody(live, expected) == live ==> BodyOriginates(Some(live), expected, live)
  {
  }

  lemma EnsuredOriginates(live: Option<Obj>, expected: Obj, spec: Spec)
    ensures var after := Ensured(live, expected, spec);
            after.meta.owner == (if live.Some? then live.value.meta.owner else expected.meta.owner) &&
            BodyOriginates(BodyOf(live), expected.body, after.body)
  {
    BodyIsOriginated(if live.Some? then live.value.body else Bare, expected.body);
    if live.Some? {
      MergeContent(live.value.meta, expected.meta, spec);
    }
  }

  lemma EnsureOriginates(c: Config, w: World, r: Request, spec: Spec, s: Stage)
    requires Calm(w) && !s.ConfigMapStage? && !s.DeploymentStage?
    requires Ensure(w, KeyOf(r, s), Expected(c, r, spec, s), spec).1 == Done
    ensures var v := Ensure(w, KeyOf(r, s), Expected(c, r, spec, s), spec).0;
            KeyOf(r, s) in v.objs && Originates(r, s, w.Lookup(KeyOf(r, s)), v.objs[KeyOf(r, s)])
  {
    var k, expected := KeyOf(r, s), Expected(c, r, spec, s);
    CalmBegin(w);
    GetFindsLookup(w, k);
    EnsureLeavesEnsured(w, k, expected, spec);
    EnsuredOriginates(w.Lookup(k), expected, spec);
    OriginatesByParts(c, r, spec, s, w.Lookup(k), Ensured(w.Lookup(k), expected, spec));
  }

  lemma GetFindsLookup(w: World, k: Key)
    requires Calm(w) && (Get(w, k).1.Ok? || Get(w, k).1 == Err(NotFound))
    ensures w.Lookup(k) == if Get(w, k).1.Ok? then Some(Get(w, k).1.value) else None
  {
    CalmBegin(w);
  }

  lemma OriginatesByParts(c: Config, r: Request, spec: Spec, s: Stage, before: Option<Obj>, after: Obj)
    requires !s.ConfigMapStage? && !s.DeploymentStage?
    requires var expected := Expected(c, r, spec, s);
             after.meta.owner == (if before.Some? then before.value.meta.owner else expected.meta.owner) &&
             BodyOriginates(BodyOf(before), expected.body, after.body)
    ensures Originates(r, s, before, after)
  {
  }

  /** A Deployment that was not there has the RolloutManager for its owner. */
  lemma DeploymentOriginates(c: Config, w: World, r: Request, spec: Spec)
    requires Calm(w) && RunDeployment(c, w, r, spec).1 == Done && KeyOf(r, DeploymentStage) !in w.objs
    ensures var v := RunDeployment(c, w, r, spec).0;
            KeyOf(r, DeploymentStage) in v.objs &&
            v.objs[KeyOf(r, DeploymentStage)].meta.owner == FirstOwner(r, DeploymentStage)
  {
    CalmBegin(w);
    CalmBegin(Begin(w));
  }

  lemma ConfigMapOriginates(c: Config, w: World, r: Request, spec: Spec)
    requires Calm(w) && RunConfigMap(c, w, r, spec).1 == Done && KeyOf(r, ConfigMapStage) !in w.objs
    ensures var v := RunConfigMap(c, w, r, spec).0;
            KeyOf(r, ConfigMapStage) in v.objs && v.objs[KeyOf(r, ConfigMapStage)].meta.owner.None? &&
            Labelled(spec, v.objs[KeyOf(r, ConfigMapStage)].meta, FirstLabels(c, ConfigMapStage), STANDARD)
  {
    CalmBegin(w);
    CalmBegin(Begin(w));
    LabelsOfStage(c, r, spec, ConfigMapStage, StoredMeta(Expected(c, r, spec, ConfigMapStage).meta));
  }
}
