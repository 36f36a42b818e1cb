/** The operator's code: a reconciler that reads and writes the cluster through its client,
    step by step.  Every method does to the world exactly what `Operator` says. */
module Reconcilers {
  import opened GoTypes
  import opened GoStrings
  import opened NamedLists
  import opened RolloutManagers
  import opened Metadata
  import opened Deployments
  import opened Statuses
  import opened Cluster
  import opened Operator

  class RolloutManagerReconciler {
    const client: Client
    const config: Config

    constructor (client: Client, config: Config)
      ensures this.client == client && this.config == config
    {
      this.client, this.config := client, config;
    }

    // ----- One object -----

    method ApplyExpected(k: Key, expected: Obj, spec: Spec) returns (o: Outcome)
      modifies client
      ensures (client.world, o) == Ensure(old(client.world), k, expected, spec)
    {
      var got := client.GetObject(k);
      if got.Err? {
        if got.error != NotFound {
          return ApiFailure(got.error);
        }
        var e := client.CreateObject(k, expected);
        return Finish(e);
      }
      var live := got.value;
      var updateNeeded := false;
      var body := RepairedBody(live.body, expected.body);
      if body != live.body {
        updateNeeded := true;
      }
      var meta := new LiveMeta(live.meta);
      var changed := meta.MergeExpected(expected.meta, spec);
      if changed {
        updateNeeded := true;
      }
      if updateNeeded {
        var e := client.UpdateObject(k, live, Obj(meta.Value(), body));
        return Finish(e);
      }
      o := Done;
    }

    method DeleteOpposite(k: Key) returns (o: Outcome)
      modifies client
      ensures (client.world, o) == DropOpposite(old(client.world), k)
    {
      var live := client.GetObject(k);
      if live.Ok? {
        var e := client.DeleteObject(k);
        return Finish(e);
      }
      o := Done;
    }

    /** Default labels and annotations, plus the operator's custom labels where asked for. */
    method ExpectedMeta(owner: Option<Owner>, spec: Spec, custom: bool) returns (m: Meta)
      ensures m == if custom then LabeledMeta(config, DefaultMeta(spec).(owner := owner))
              else DefaultMeta(spec).(owner := owner)
    {
      var meta := new LiveMeta(BARE_META.(owner := owner));
      meta.SetDefaults(spec);
      if custom && config.resourceLabels.Map? {
        meta.SetCustomLabels(config.resourceLabels);
      }
      m := meta.Value();
    }

    method ReconcileServiceAccount(r: Request, spec: Spec) returns (o: Outcome)
      modifies client
      ensures (client.world, o) == RunStage(config, old(client.world), r, spec, ServiceAccountStage)
    {
      var meta := ExpectedMeta(Some(Owner(true, r.name)), spec, false);
      o := ApplyExpected(Key(ServiceAccount, r.ns, RESOURCE_NAME), Obj(meta, Bare), spec);
    }

    method ReconcileRole(r: Request, spec: Spec) returns (o: Outcome)
      modifies client
      ensures (client.world, o) == RunStage(config, old(client.world), r, spec, RoleStage)
    {
      o := DeleteOpposite(CLUSTER_ROLE);
      if o == Done {
        var meta := ExpectedMeta(Some(Owner(true, r.name)), spec, false);
        o := ApplyExpected(Key(Role, r.ns, RESOURCE_NAME), Obj(meta, RulesBody(PolicyRules)), spec);
      }
    }

    method ReconcileClusterRole(r: Request, spec: Spec) returns (o: Outcome)
      modifies client
      ensures (client.world, o) == RunStage(config, old(client.world), r, spec, ClusterRoleStage)
    {
      o := DeleteOpposite(Key(Role, r.ns, RESOURCE_NAME));
      if o == Done {
        var meta := ExpectedMeta(None, spec, false);
        o := ApplyExpected(CLUSTER_ROLE, Obj(meta, RulesBody(PolicyRules)), spec);
      }
    }

    method ReconcileAggregate(a: Aggregation, r: Request, spec: Spec) returns (o: Outcome)
      modifies client
      ensures (client.world, o) == RunStage(config, old(client.world), r, spec, AggregateStage(a))
    {
      var labels: map<string, string> := map[];
      labels := labels[COMPONENT_LABEL := "aggregate-cluster-role"];
      labels := labels[NAME_LABEL := AggregateName(a)];
      labels := labels[PART_OF_LABEL := RESOURCE_NAME];
      labels := labels[RBAC_PREFIX + AggregationName(a) := "true"];
      var meta := new LiveMeta(BARE_META.(labels := Map(labels)));
      meta.SetAdditionalLabelsAndAnnotations(spec);
      assert map[] + spec.ExtraAnnotations() == spec.ExtraAnnotations();
      assert meta.Value() == ExpectedAggregateMeta(a, spec);
      o := ApplyExpected(AggregateKey(a), Obj(meta.Value(), RulesBody(AggregateRules(a))), spec);
    }

    method ReconcileRoleBinding(r: Request, spec: Spec) returns (o: Outcome)
      modifies client
      ensures (client.world, o) == RunStage(config, old(client.world), r, spec, RoleBindingStage)
    {
      o := DeleteOpposite(CLUSTER_ROLE_BINDING);
      if o == Done {
        var meta := ExpectedMeta(Some(Owner(true, r.name)), spec, false);
        var body := BindingBody(RoleRef("Role", RESOURCE_NAME), [Subject("ServiceAccount", RESOURCE_NAME, r.ns)]);
        o := ApplyExpected(Key(RoleBinding, r.ns, RESOURCE_NAME), Obj(meta, body), spec);
      }
    }

    method ReconcileClusterRoleBinding(r: Request, spec: Spec) returns (o: Outcome)
      modifies client
      ensures (client.world, o) == RunStage(config, old(client.world), r, spec, ClusterRoleBindingStage)
    {
      o := DeleteOpposite(Key(RoleBinding, r.ns, RESOURCE_NAME));
      if o == Done {
        var meta := ExpectedMeta(None, spec, false);
        var body := BindingBody(RoleRef("ClusterRole", RESOURCE_NAME),
                                [Subject("ServiceAccount", RESOURCE_NAME, r.ns)]);
        o := ApplyExpected(CLUSTER_ROLE_BINDING, Obj(meta, body), spec);
      }
    }

    method ReconcileSecret(r: Request, spec: Spec) returns (o: Outcome)
      modifies client
      ensures (client.world, o) == RunStage(config, old(client.world), r, spec, SecretStage)
    {
      var meta := ExpectedMeta(Some(Owner(true, r.name)), spec, true);
      var k := Key(Secret, r.ns, SECRET_NAME);
      if !spec.skipNotificationSecret {
        o := ApplyExpected(k, Obj(meta, SecretBody(NO_CONTENT)), spec);
        return;
      }
      var live := client.GetObject(k);
      if live.Err? {
        if live.error != NotFound {
          return ApiFailure(live.error);
        }
        return Done;
      }
      var controller := live.value.meta.owner;
      if controller.Some? && controller.value.name == r.name {
        var e := client.DeleteObject(k);
        return Finish(e);
      }
      o := Done;
    }

    // ----- ConfigMap -----

    method CollectTrafficPlugins(spec: Spec) returns (r: Result<seq<Plugin>, Cause>)
      requires config.pluginLocation != ""
      ensures r == if PluginProblem(config, spec).Some? then Err(PluginProblem(config, spec).value)
                   else Ok(TrafficPlugins(config, spec))
    {
      var own := Named(OPENSHIFT_PLUGIN, PluginBody(config.pluginLocation, ""));
      var plugins: map<string, Plugin> := map[OPENSHIFT_PLUGIN := own];
      var i := 0;
      assert [own] + spec.trafficPlugins[..0] == [own];
      assert Represents(plugins, [own]);
      while i < |spec.trafficPlugins|
        invariant 0 <= i <= |spec.trafficPlugins|
        invariant Represents(plugins, [own] + spec.trafficPlugins[..i])
        invariant forall j | 0 <= j < i :: spec.trafficPlugins[j].name != OPENSHIFT_PLUGIN
      {
        var plugin := spec.trafficPlugins[i];
        if plugin.name == OPENSHIFT_PLUGIN {
          assert plugin in spec.trafficPlugins;
          return Err(PluginReserved);
        }
        RepresentsAppend(plugins, [own] + spec.trafficPlugins[..i], plugin);
        assert [own] + spec.trafficPlugins[..i + 1] == [own] + spec.trafficPlugins[..i] + [plugin];
        if plugin.name !in plugins {
          plugins := plugins[plugin.name := plugin];
        }
        i := i + 1;
      }
      assert spec.trafficPlugins[..i] == spec.trafficPlugins;
      var sorted := SortedLookups(plugins, [own] + spec.trafficPlugins);
      r := Ok(sorted);
    }

    method CollectMetricPlugins(spec: Spec) returns (sorted: seq<Plugin>)
      ensures sorted == MetricPlugins(spec)
    {
      var plugins: map<string, Plugin> := map[];
      var i := 0;
      while i < |spec.metricPlugins|
        invariant 0 <= i <= |spec.metricPlugins|
        invariant Represents(plugins, spec.metricPlugins[..i])
      {
        var plugin := spec.metricPlugins[i];
        RepresentsAppend(plugins, spec.metricPlugins[..i], plugin);
        assert spec.metricPlugins[..i + 1] == spec.metricPlugins[..i] + [plugin];
        if plugin.name !in plugins {
          plugins := plugins[plugin.name := plugin];
        }
        i := i + 1;
      }
      assert spec.metricPlugins[..i] == spec.metricPlugins;
      sorted := SortedLookups(plugins, spec.metricPlugins);
    }

    method RestartRolloutsPod(r: Request) returns (o: Outcome)
      modifies client
      ensures (client.world, o) == RestartPods(old(client.world), r)
    {
      var live := client.GetObject(Key(DeploymentKind, r.ns, RESOURCE_NAME));
      if live.Err? {
        if live.error == NotFound {
          return Done;
        }
        return ApiFailure(live.error);
      }
      var selector := AsDeployment(live.value).spec.selector;
      if selector.None? {
        return Panicked;
      }
      var pods := client.ReadPods(r.ns, selector.value.matchLabels.Content());
      if pods.Err? {
        return ApiFailure(pods.error);
      }
      o := RemovePods(pods.value);
    }

    method RemovePods(pods: seq<Pod>) returns (o: Outcome)
      modifies client
      ensures (client.world, o) == DeletePods(old(client.world), pods)
    {
      ghost var start := client.world;
      for i := 0 to |pods|
        invariant DeletePods(client.world, pods[i..]) == DeletePods(start, pods)
      {
        assert pods[i..][1..] == pods[i + 1..];
        if !pods[i].deleting {
          var e := client.RemovePod(pods[i].ns, pods[i].name);
          if e.Some? && e.value != NotFound {
            return ApiFailure(e.value);
          }
        }
      }
      o := Done;
    }

    method ReconcileConfigMap(r: Request, spec: Spec) returns (o: Outcome)
      modifies client
      ensures (client.world, o) == RunStage(config, old(client.world), r, spec, ConfigMapStage)
    {
      if config.pluginLocation == "" {
        return Failed(LocationMissing);
      }
      var meta := ExpectedMeta(None, spec, true);
      var traffic := CollectTrafficPlugins(spec);
      if traffic.Err? {
        return Failed(traffic.error);
      }
      var metric := CollectMetricPlugins(spec);
      var k := Key(ConfigMap, r.ns, CONFIG_NAME);
      var got := client.GetObject(k);
      if got.Err? {
        if got.error == NotFound {
          var e := client.CreateObject(k, Obj(meta, ConfigBody(Data(
            map[TRAFFIC_KEY := Marshalled(traffic.value), METRIC_KEY := Marshalled(metric)]))));
          return Finish(e);
        }
        return ApiFailure(got.error);
      }
      o := RepairConfigMap(r, spec, got.value, traffic.value, metric);
    }

    method RepairConfigMap(r: Request, spec: Spec, live: Obj, traffic: seq<Plugin>, metric: seq<Plugin>)
      returns (o: Outcome)
      requires traffic == TrafficPlugins(config, spec) && metric == MetricPlugins(spec)
      modifies client
      ensures (client.world, o) == RepairConfig(config, old(client.world), r, spec, live)
    {
      var data := DataOf(live);
      var actualTraffic := Unmarshal(data, TRAFFIC_KEY);
      if actualTraffic.Err? {
        return Failed(DataUnparsable(actualTraffic.error));
      }
      var actualMetric := Unmarshal(data, METRIC_KEY);
      if actualMetric.Err? {
        return Failed(DataUnparsable(actualMetric.error));
      }
      var updateNeeded := actualTraffic.value != Slice(traffic) || actualMetric.value != Slice(metric);
      var entries := Entries(data);
      if OLD_METRIC_KEY in entries {
        updateNeeded := true;
      }
      entries := entries - {OLD_METRIC_KEY};
      if !updateNeeded {
        return Done;
      }
      if data.NilData? {
        return Panicked;
      }
      ghost var without := entries;
      entries := entries[TRAFFIC_KEY := Marshalled(traffic)];
      entries := entries[METRIC_KEY := Marshalled(metric)];
      assert entries == without + PluginData(config, spec);
      var e := client.UpdateObject(Key(ConfigMap, r.ns, CONFIG_NAME), live, live.(body := ConfigBody(Data(entries))));
      if e.Some? {
        return ApiFailure(e.value);
      }
      o := RestartRolloutsPod(r);
    }

    // ----- Deployment -----

    method CreateNewDeployment(r: Request, desired: Deployment) returns (o: Outcome)
      modifies client
      ensures (client.world, o) == CreateDeployment(old(client.world), r, desired)
    {
      var owned := desired.(meta := desired.meta.(owner := Some(Owner(true, r.name))));
      var e := client.CreateObject(Key(DeploymentKind, r.ns, RESOURCE_NAME), AsObj(owned));
      o := Finish(e);
    }

    method Overwrite(live: Deployment, desired: Deployment) returns (actual: Deployment)
      ensures actual == Overwritten(live, desired)
    {
      var labels := CombineStringMaps(Slice([live.meta.labels, desired.meta.labels]));
      var annotations := CombineStringMaps(Slice([live.meta.annotations, desired.meta.annotations]));
      CombinedPair(live.meta.labels, desired.meta.labels);
      CombinedPair(live.meta.annotations, desired.meta.annotations);
      actual := live;
      var pod, wanted := live.spec.template.pod, desired.spec.template.pod;
      actual := actual.(spec := actual.spec.(strategy := desired.spec.strategy));
      pod := pod.(containers := wanted.containers);
      pod := pod.(serviceAccount := wanted.serviceAccount);
      actual := actual.(spec := actual.spec.(replicas := desired.spec.replicas));
      pod := pod.(affinity := wanted.affinity);
      actual := actual.(meta := actual.meta.(labels := labels, annotations := annotations));
      var template := actual.spec.template.(labels := desired.spec.template.labels);
      template := template.(annotations := desired.spec.template.annotations);
      actual := actual.(spec := actual.spec.(selector := desired.spec.selector));
      pod := pod.(nodeSelector := wanted.nodeSelector, tolerations := wanted.tolerations);
      pod := pod.(security := wanted.security, volumes := wanted.volumes);
      actual := actual.(spec := actual.spec.(template := template.(pod := pod)));
    }

    method ResolveDifference(r: Request, live: Obj, desired: Deployment, have: Deployment, want: Deployment)
      returns (o: Outcome)
      modifies client
      ensures (client.world, o) == FixDeployment(old(client.world), r, live, desired, have, want)
    {
      var k := Key(DeploymentKind, r.ns, RESOURCE_NAME);
      if have.spec.selector != want.spec.selector {
        var e := client.DeleteObject(k);
        if e.Some? {
          return ApiFailure(e.value);
        }
        o := CreateNewDeployment(r, desired);
        return;
      }
      var actual := Overwrite(AsDeployment(live), desired);
      var e := client.UpdateObject(k, live, AsObj(actual));
      o := Finish(e);
    }

    method DriveLiveDeployment(r: Request, spec: Spec, desired: Deployment) returns (o: Outcome)
      modifies client
      ensures (client.world, o) == DriveDeployment(old(client.world), r, spec, desired)
    {
      var normalDesired := NormalizeDeployment(desired, spec);
      var want := if normalDesired.Ok? then normalDesired.value else EMPTY_DEPLOYMENT;
      var got := client.GetObject(Key(DeploymentKind, r.ns, RESOURCE_NAME));
      if got.Err? {
        if got.error != NotFound {
          return ApiFailure(got.error);
        }
        o := CreateNewDeployment(r, desired);
        return;
      }
      var normalLive := NormalizeDeployment(AsDeployment(got.value), spec);
      var have := if normalLive.Ok? then normalLive.value else EMPTY_DEPLOYMENT;
      if normalLive.Err? || have != want {
        o := ResolveDifference(r, got.value, desired, have, want);
        return;
      }
      o := Done;
    }

    method ReconcileDeployment(r: Request, spec: Spec) returns (o: Outcome)
      modifies client
      ensures (client.world, o) == RunStage(config, old(client.world), r, spec, DeploymentStage)
    {
      var generated := GenerateDesiredRolloutsDeployment(config, spec);
      if generated.Err? {
        return Failed(generated.error);
      }
      o := DriveLiveDeployment(r, spec, generated.value);
    }

    // ----- Service and NetworkPolicy -----

    method ReconcileMetricsService(r: Request, spec: Spec) returns (o: Outcome)
      modifies client
      ensures (client.world, o) == RunStage(config, old(client.world), r, spec, ServiceStage)
    {
      var meta := ExpectedMeta(Some(Owner(true, r.name)), spec, false);
      var labels := meta.labels.Content()[NAME_LABEL := METRICS_NAME];
      labels := labels[COMPONENT_LABEL := "server"];
      meta := meta.(labels := Map(labels));
      o := ApplyExpected(Key(Service, r.ns, METRICS_NAME), Obj(meta, ServiceBody(METRICS_PORTS, METRICS_SELECTOR)),
                         spec);
    }

    method DeleteNetworkPolicies(r: Request) returns (o: Outcome)
      modifies client
      ensures (client.world, o) == DeleteNetworkPolicy(old(client.world), r)
    {
      var k := Key(NetworkPolicy, r.ns, NETWORK_POLICY_NAME);
      var live := client.GetObject(k);
      if live.Err? {
        if live.error == NotFound {
          return Done;
        }
        return ApiFailure(live.error);
      }
      var e := client.DeleteObject(k);
      o := Finish(e);
    }

    method ReconcileNetworkPolicy(r: Request, spec: Spec) returns (o: Outcome)
      modifies client
      ensures (client.world, o) == RunStage(config, old(client.world), r, spec, NetworkPolicyStage)
    {
      if !spec.NetworkPolicyEnabled() {
        o := DeleteNetworkPolicies(r);
        return;
      }
      var meta := ExpectedMeta(Some(Owner(true, r.name)), spec, false);
      o := ApplyExpected(Key(NetworkPolicy, r.ns, NETWORK_POLICY_NAME),
                         Obj(meta, NetworkPolicyBody(POLICY_PODS, POLICY_TYPES, POLICY_INGRESS)), spec);
    }

    // ----- The whole reconcile -----

    /** Deployment, Service and NetworkPolicy. */
    method ReconcileWorkload(r: Request, spec: Spec) returns (o: Outcome)
      modifies client
      ensures (client.world, o) == RunStages(config, old(client.world), r, spec, Pipeline(spec)[8..])
    {
      ghost var w := client.world;
      o := ReconcileDeployment(r, spec);
      StageStep(config, w, r, spec, Pipeline(spec), 8);
      if o != Done {
        return;
      }
      w := client.world;
      o := ReconcileMetricsService(r, spec);
      StageStep(config, w, r, spec, Pipeline(spec), 9);
      if o != Done {
        return;
      }
      w := client.world;
      o := ReconcileNetworkPolicy(r, spec);
      StageStep(config, w, r, spec, Pipeline(spec), 10);
    }

    /** Secret and ConfigMap, then the workload. */
    method ReconcileConfiguration(r: Request, spec: Spec) returns (o: Outcome)
      modifies client
      ensures (client.world, o) == RunStages(config, old(client.world), r, spec, Pipeline(spec)[6..])
    {
      ghost var w := client.world;
      o := ReconcileSecret(r, spec);
      StageStep(config, w, r, spec, Pipeline(spec), 6);
      if o != Done {
        return;
      }
      w := client.world;
      o := ReconcileConfigMap(r, spec);
      StageStep(config, w, r, spec, Pipeline(spec), 7);
      if o != Done {
        return;
      }
      o := ReconcileWorkload(r, spec);
    }

    /** The aggregate roles and the binding, then the configuration. */
    method ReconcileAggregates(r: Request, spec: Spec) returns (o: Outcome)
      modifies client
      ensures (client.world, o) == RunStages(config, old(client.world), r, spec, Pipeline(spec)[2..])
    {
      ghost var w := client.world;
      o := ReconcileAggregate(Admin, r, spec);
      StageStep(config, w, r, spec, Pipeline(spec), 2);
      if o != Done {
        return;
      }
      w := client.world;
      o := ReconcileAggregate(Edit, r, spec);
      StageStep(config, w, r, spec, Pipeline(spec), 3);
      if o != Done {
        return;
      }
      w := client.world;
      o := ReconcileAggregate(View, r, spec);
      StageStep(config, w, r, spec, Pipeline(spec), 4);
      if o != Done {
        return;
      }
      w := client.world;
      if spec.namespaceScoped {
        o := ReconcileRoleBinding(r, spec);
      } else {
        o := ReconcileClusterRoleBinding(r, spec);
      }
      StageStep(config, w, r, spec, Pipeline(spec), 5);
      if o != Done {
        return;
      }
      o := ReconcileConfiguration(r, spec);
    }

    /** Every stage in order, up to the first that does not finish. */
    method RunPipeline(r: Request, spec: Spec) returns (o: Outcome)
      modifies client
      ensures (client.world, o) == RunStages(config, old(client.world), r, spec, Pipeline(spec))
    {
      ghost var w := client.world;
      o := ReconcileServiceAccount(r, spec);
      StageStep(config, w, r, spec, Pipeline(spec), 0);
      if o != Done {
        return;
      }
      w := client.world;
      if spec.namespaceScoped {
        o := ReconcileRole(r, spec);
      } else {
        o := ReconcileClusterRole(r, spec);
      }
      StageStep(config, w, r, spec, Pipeline(spec), 1);
      if o != Done {
        return;
      }
      o := ReconcileAggregates(r, spec);
    }

    method FindOtherClusterScoped(rms: map<Request, RolloutManager>, r: Request) returns (found: bool)
      ensures found == OtherClusterScoped(rms, r)
    {
      var pending := rms.Keys;
      while pending != {}
        invariant pending <= rms.Keys
        invariant forall q | q in rms && q !in pending :: q == r || rms[q].spec.namespaceScoped
      {
        var q :| q in pending;
        pending := pending - {q};
        if q != r && !rms[q].spec.namespaceScoped {
          return true;
        }
      }
      found := false;
    }

    method DetermineStatusPhase(r: Request, status: Status) returns (res: StatusResult, o: Outcome)
      modifies client
      ensures (client.world, res, o) == DeterminePhase(old(client.world), r, status)
    {
      o := Done;
      var phase := Unknown;
      var live := client.GetObject(Key(DeploymentKind, r.ns, RESOURCE_NAME));
      if live.Err? {
        if live.error != NotFound {
          return ErrorResult(ApiCause(live.error)), ApiFailure(live.error);
        }
        phase := Failure;
      } else {
        var deployment := AsDeployment(live.value);
        if deployment.spec.replicas.Some? {
          phase := Pending;
          if deployment.ready == deployment.spec.replicas.value {
            phase := Available;
          }
        }
      }
      res := PhaseResult(status, phase);
    }

    method ReconcileAdmitted(r: Request, rm: RolloutManager) returns (res: StatusResult, o: Outcome)
      modifies client
      ensures (client.world, res, o) == RunAdmitted(config, old(client.world), r, rm)
    {
      o := RunPipeline(r, rm.spec);
      if o.Failed? {
        return ErrorResult(o.cause), o;
      }
      if o.Panicked? {
        return ErrorResult(Internal), o;
      }
      res, o := DetermineStatusPhase(r, rm.status);
    }

    method ReconcileRolloutsManager(r: Request, rm: RolloutManager) returns (res: StatusResult, o: Outcome)
      modifies client
      ensures (client.world, res, o) == ReconcileManager(config, old(client.world), r, rm)
    {
      var scope := ScopeProblem(config, r, rm.spec);
      if scope.Some? {
        return Rejection(scope.value), Done;
      }
      if !rm.spec.namespaceScoped {
        var rms := client.ReadManagers();
        if rms.Err? {
          return ErrorResult(ApiCause(rms.error)), ApiFailure(rms.error);
        }
        var other := FindOtherClusterScoped(rms.value, r);
        if other {
          return Rejection(CreateCondition(Message(NotAlone), [MultipleClusterScoped])), Done;
        }
      }
      res, o := ReconcileAdmitted(r, rm);
    }

    method UpdateStatusOf(r: Request, rm: RolloutManager, res: StatusResult, outcome: Outcome) returns (o: Outcome)
      requires !outcome.Panicked?
      modifies client
      ensures (client.world, o) == WriteResult(old(client.world), r, rm, res, outcome)
    {
      var changed, conditions := InsertOrUpdateConditions(res.condition, rm.status.conditions, client.world.now);
      var status := rm.status;
      if res.phase.Some? && res.phase.value != status.phase {
        status := status.(phase := res.phase.value);
        changed := true;
      }
      if res.rolloutController.Some? && res.rolloutController.value != status.rolloutController {
        status := status.(rolloutController := res.rolloutController.value);
        changed := true;
      }
      o := outcome;
      if changed {
        status := status.(conditions := conditions);
        var e := client.WriteStatus(r, rm, status);
        if e.Some? {
          o := ApiFailure(e.value);
        }
      }
    }

    method RemoveIfPresent(k: Key) returns (o: Outcome)
      modifies client
      ensures (client.world, o) == Remove(old(client.world), k)
    {
      var live := client.GetObject(k);
      if live.Err? {
        if live.error != NotFound {
          return ApiFailure(live.error);
        }
      } else {
        var e := client.DeleteObject(k);
        if e.Some? && e.value != NotFound {
          return ApiFailure(e.value);
        }
      }
      o := Done;
    }

    method RemoveClusterScopedResources() returns (o: Outcome)
      modifies client
      ensures (client.world, o) == Cleanup(old(client.world))
    {
      var start := client.world;
      o := RemoveIfPresent(CLUSTER_ROLE);
      if o != Done {
        return;
      }
      var suffixes := [Admin, Edit, View];
      var i := 0;
      while i < |suffixes|
        invariant 0 <= i <= 3
        invariant RemoveAll(client.world, CLUSTER_SCOPED[i + 1..]) == Cleanup(start)
      {
        assert CLUSTER_SCOPED[i + 1..][0] == AggregateKey(suffixes[i]);
        assert CLUSTER_SCOPED[i + 1..][1..] == CLUSTER_SCOPED[i + 2..];
        o := RemoveIfPresent(AggregateKey(suffixes[i]));
        if o != Done {
          return;
        }
        i := i + 1;
      }
      assert CLUSTER_SCOPED[4..] == [CLUSTER_ROLE_BINDING];
      o := RemoveIfPresent(CLUSTER_ROLE_BINDING);
    }

    method ReconcileRequest(r: Request) returns (o: Outcome)
      modifies client
      ensures (client.world, o) == Reconcile(config, old(client.world), r)
    {
      var terminating := client.ReadNamespace(r.ns);
      if terminating.Err? {
        if terminating.error == NotFound {
          o := RemoveClusterScopedResources();
          return;
        }
        return ApiFailure(terminating.error);
      }
      if terminating.value {
        return Done;
      }
      var rm := client.ReadManager(r);
      if rm.Err? {
        if rm.error == NotFound {
          o := RemoveClusterScopedResources();
          return;
        }
        return ApiFailure(rm.error);
      }
      var res, outcome := ReconcileRolloutsManager(r, rm.value);
      if outcome.Panicked? {
        return outcome;
      }
      o := UpdateStatusOf(r, rm.value, res, outcome);
    }
  }

  lemma StageStep(c: Config, w: World, r: Request, spec: Spec, stages: seq<Stage>, i: nat)
    requires i < |stages|
    ensures RunStages(c, w, r, spec, stages[i..]) ==
            var (w1, o) := RunStage(c, w, r, spec, stages[i]);
            if o != Done then (w1, o) else RunStages(c, w1, r, spec, stages[i + 1..])
  {
    assert stages[i..][0] == stages[i] && stages[i..][1..] == stages[i + 1..];
  }
}
