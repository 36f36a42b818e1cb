/** What one reconcile does to the world: admission, the ordered stages, the status. */
module Operator {
  import opened GoTypes
  import opened GoStrings
  import opened NamedLists
  import opened RolloutManagers
  import opened Metadata
  import opened Deployments
  import opened Statuses
  import opened Cluster

  datatype Outcome = Done | Failed(cause: Cause) | Panicked

  function ApiFailure(e: ApiError): Outcome {
    Failed(ApiCause(e))
  }

  function Finish(e: Option<ApiError>): Outcome {
    if e.None? then Done else ApiFailure(e.value)
  }

  // ----- The objects the operator drives -----

  const METRICS_NAME := "argo-rollouts-metrics"
  const SECRET_NAME := "argo-rollouts-notification-secret"
  const CONFIG_NAME := "argo-rollouts-config"
  const NETWORK_POLICY_NAME := "argo-rollouts-network-policy"

  const CLUSTER_ROLE := Key(ClusterRole, "", RESOURCE_NAME)
  const CLUSTER_ROLE_BINDING := Key(ClusterRoleBinding, "", RESOURCE_NAME)

  datatype Aggregation = Admin | Edit | View

  function AggregationName(a: Aggregation): string {
    match a
    case Admin => "aggregate-to-admin"
    case Edit => "aggregate-to-edit"
    case View => "aggregate-to-view"
  }

  function AggregateName(a: Aggregation): string {
    RESOURCE_NAME + "-" + AggregationName(a)
  }

  function AggregateKey(a: Aggregation): Key {
    Key(ClusterRole, "", AggregateName(a))
  }

  function AggregateRules(a: Aggregation): RuleSet {
    match a
    case Admin => AdminRules
    case Edit => EditRules
    case View => ViewRules
  }

  datatype Stage =
    | ServiceAccountStage
    | RoleStage
    | ClusterRoleStage
    | AggregateStage(a: Aggregation)
    | RoleBindingStage
    | ClusterRoleBindingStage
    | SecretStage
    | ConfigMapStage
    | DeploymentStage
    | ServiceStage
    | NetworkPolicyStage

  /** The object a stage drives. */
  function KeyOf(r: Request, s: Stage): Key {
    match s
    case ServiceAccountStage => Key(ServiceAccount, r.ns, RESOURCE_NAME)
    case RoleStage => Key(Role, r.ns, RESOURCE_NAME)
    case ClusterRoleStage => CLUSTER_ROLE
    case AggregateStage(a) => AggregateKey(a)
    case RoleBindingStage => Key(RoleBinding, r.ns, RESOURCE_NAME)
    case ClusterRoleBindingStage => CLUSTER_ROLE_BINDING
    case SecretStage => Key(Secret, r.ns, SECRET_NAME)
    case ConfigMapStage => Key(ConfigMap, r.ns, CONFIG_NAME)
    case DeploymentStage => Key(DeploymentKind, r.ns, RESOURCE_NAME)
    case ServiceStage => Key(Service, r.ns, METRICS_NAME)
    case NetworkPolicyStage => Key(NetworkPolicy, r.ns, NETWORK_POLICY_NAME)
  }

  /** The opposite-scope object a stage removes first. */
  function OppositeKey(r: Request, s: Stage): Option<Key> {
    match s
    case RoleStage => Some(CLUSTER_ROLE)
    case ClusterRoleStage => Some(KeyOf(r, RoleStage))
    case RoleBindingStage => Some(CLUSTER_ROLE_BINDING)
    case ClusterRoleBindingStage => Some(KeyOf(r, RoleBindingStage))
    case _ => None
  }

  function OwnedMeta(r: Request, spec: Spec): Meta {
    DefaultMeta(spec).(owner := Some(Owner(true, r.name)))
  }

  function ExpectedAggregateMeta(a: Aggregation, spec: Spec): Meta {
    var labels := map[COMPONENT_LABEL := "aggregate-cluster-role", NAME_LABEL := AggregateName(a),
                      PART_OF_LABEL := RESOURCE_NAME, RBAC_PREFIX + AggregationName(a) := "true"];
    if spec.additionalMetadata.None? then BARE_META.(labels := Map(labels))
    else BARE_META.(labels := Map(labels + spec.ExtraLabels()), annotations := Map(spec.ExtraAnnotations()))
  }

  /** Labels of the Secret and the ConfigMap, which also carry the operator's custom labels. */
  function LabeledMeta(c: Config, m: Meta): Meta {
    if c.resourceLabels.NilMap? then m else m.(labels := MergeMaps(m.labels, c.resourceLabels))
  }

  function ServiceMeta(r: Request, spec: Spec): Meta {
    OwnedMeta(r, spec).(labels := Map(DefaultLabels(spec)[NAME_LABEL := METRICS_NAME][COMPONENT_LABEL := "server"]))
  }

  const METRICS_PORTS: Opaque := 1
  const METRICS_SELECTOR: Opaque := 2
  const POLICY_PODS: Opaque := 3
  const POLICY_TYPES: Opaque := 4
  const POLICY_INGRESS: Opaque := 5
  const NO_CONTENT: Opaque := 0

  function ServiceAccountSubjects(r: Request): seq<Subject> {
    [Subject("ServiceAccount", RESOURCE_NAME, r.ns)]
  }

  /** What a stage creates when its object is missing, and repairs a live one towards. */
  function Expected(c: Config, r: Request, spec: Spec, s: Stage): Obj {
    match s
    case ServiceAccountStage => Obj(OwnedMeta(r, spec), Bare)
    case RoleStage => Obj(OwnedMeta(r, spec), RulesBody(PolicyRules))
    case ClusterRoleStage => Obj(DefaultMeta(spec), RulesBody(PolicyRules))
    case AggregateStage(a) => Obj(ExpectedAggregateMeta(a, spec), RulesBody(AggregateRules(a)))
    case RoleBindingStage =>
      Obj(OwnedMeta(r, spec), BindingBody(RoleRef("Role", RESOURCE_NAME), ServiceAccountSubjects(r)))
    case ClusterRoleBindingStage =>
      Obj(DefaultMeta(spec), BindingBody(RoleRef("ClusterRole", RESOURCE_NAME), ServiceAccountSubjects(r)))
    case SecretStage => Obj(LabeledMeta(c, OwnedMeta(r, spec)), SecretBody(NO_CONTENT))
    case ConfigMapStage => Obj(LabeledMeta(c, DefaultMeta(spec)), ConfigBody(Data(PluginData(c, spec))))
    case DeploymentStage => Obj(OwnedMeta(r, spec), Bare)
    case ServiceStage => Obj(ServiceMeta(r, spec), ServiceBody(METRICS_PORTS, METRICS_SELECTOR))
    case NetworkPolicyStage => Obj(OwnedMeta(r, spec), NetworkPolicyBody(POLICY_PODS, POLICY_TYPES, POLICY_INGRESS))
  }

  // ----- Driving one object -----

  /** The content the operator repairs; a binding's role reference, a Service's selector
      and a Secret's data are left as they are. */
  function RepairedBody(live: Body, expected: Body): Body {
    match expected
    case RulesBody(_) => expected
    case BindingBody(_, subjects) => if live.BindingBody? then live.(subjects := subjects) else expected
    case ServiceBody(ports, _) => if live.ServiceBody? then live.(ports := ports) else expected
    case NetworkPolicyBody(_, _, _) => expected
    case _ => live
  }

  function Repaired(live: Obj, expected: Obj, spec: Spec): Obj {
    Obj(MergedMeta(live.meta, expected.meta, spec), RepairedBody(live.body, expected.body))
  }

  predicate NeedsUpdate(live: Obj, expected: Obj, spec: Spec) {
    RepairedBody(live.body, expected.body) != live.body || !MetaMatches(live.meta, expected.meta, spec)
  }

  /** Create the object if it is missing, otherwise repair what differs. */
  function Ensure(w: World, k: Key, expected: Obj, spec: Spec): (World, Outcome) {
    var (w1, live) := Get(w, k);
    if live == Err(NotFound) then
      var (w2, e) := Create(w1, k, expected);
      (w2, Finish(e))
    else if live.Err? then (w1, ApiFailure(live.error))
    else if NeedsUpdate(live.value, expected, spec) then
      var (w2, e) := Update(w1, k, live.value, Repaired(live.value, expected, spec));
      (w2, Finish(e))
    else (w1, Done)
  }

  /** Remove the opposite-scope object.  A failed Get counts as absence. */
  function DropOpposite(w: World, k: Key): (World, Outcome) {
    var (w1, live) := Get(w, k);
    if live.Err? then (w1, Done)
    else
      var (w2, e) := Delete(w1, k);
      (w2, Finish(e))
  }

  function EnsureScoped(w: World, opposite: Key, k: Key, expected: Obj, spec: Spec): (World, Outcome) {
    var (w1, o) := DropOpposite(w, opposite);
    if o != Done then (w1, o) else Ensure(w1, k, expected, spec)
  }

  // ----- Secret -----

  predicate ControlledBy(o: Obj, r: Request) {
    o.meta.owner.Some? && o.meta.owner.value.name == r.name
  }

  function SkipSecret(w: World, r: Request): (World, Outcome) {
    var (w1, live) := Get(w, KeyOf(r, SecretStage));
    if live == Err(NotFound) then (w1, Done)
    else if live.Err? then (w1, ApiFailure(live.error))
    else if ControlledBy(live.value, r) then
      var (w2, e) := Delete(w1, KeyOf(r, SecretStage));
      (w2, Finish(e))
    else (w1, Done)
  }

  function RunSecret(c: Config, w: World, r: Request, spec: Spec): (World, Outcome) {
    if spec.skipNotificationSecret then SkipSecret(w, r)
    else Ensure(w, KeyOf(r, SecretStage), Expected(c, r, spec, SecretStage), spec)
  }

  // ----- ConfigMap -----

  const OPENSHIFT_PLUGIN := "argoproj-labs/openshift"
  const TRAFFIC_KEY := "trafficRouterPlugins"
  const METRIC_KEY := "metricProviderPlugins"
  const OLD_METRIC_KEY := "metricPlugins"

  function TrafficPlugins(c: Config, spec: Spec): seq<Plugin> {
    Canonical([Named(OPENSHIFT_PLUGIN, PluginBody(c.pluginLocation, ""))] + spec.trafficPlugins)
  }

  function MetricPlugins(spec: Spec): seq<Plugin> {
    Canonical(spec.metricPlugins)
  }

  function PluginData(c: Config, spec: Spec): map<string, Text> {
    map[TRAFFIC_KEY := Marshalled(TrafficPlugins(c, spec)), METRIC_KEY := Marshalled(MetricPlugins(spec))]
  }

  /** Why the CR's plugin list is refused, if it is. */
  function PluginProblem(c: Config, spec: Spec): Option<Cause> {
    if c.pluginLocation == "" then Some(LocationMissing)
    else if exists p | p in spec.trafficPlugins :: p.name == OPENSHIFT_PLUGIN then Some(PluginReserved)
    else None
  }

  function DataOf(o: Obj): ConfigData {
    if o.body.ConfigBody? then o.body.data else NilData
  }

  function Entries(d: ConfigData): map<string, Text> {
    if d.NilData? then map[] else d.entries
  }

  function Unmarshal(d: ConfigData, key: string): Result<GoSlice<Plugin>, string> {
    if key !in Entries(d) then Ok(NilSlice)
    else
      match Entries(d)[key]
      case Marshalled(items) => Ok(Slice(items))
      case Foreign(parsed) => parsed
  }

  predicate PluginsDiffer(d: ConfigData, c: Config, spec: Spec) {
    Unmarshal(d, TRAFFIC_KEY) != Ok(Slice(TrafficPlugins(c, spec))) ||
    Unmarshal(d, METRIC_KEY) != Ok(Slice(MetricPlugins(spec))) ||
    OLD_METRIC_KEY in Entries(d)
  }

  function RepairedConfig(live: Obj, c: Config, spec: Spec): Obj {
    live.(body := ConfigBody(Data((Entries(DataOf(live)) - {OLD_METRIC_KEY}) + PluginData(c, spec))))
  }

  function DeletePods(w: World, pods: seq<Pod>): (World, Outcome)
    decreases |pods|
  {
    if pods == [] then (w, Done)
    else if pods[0].deleting then DeletePods(w, pods[1..])
    else
      var (w1, e) := DeletePod(w, pods[0].ns, pods[0].name);
      if e.Some? && e.value != NotFound then (w1, ApiFailure(e.value)) else DeletePods(w1, pods[1..])
  }

  function AsDeployment(o: Obj): Deployment {
    if o.body.DeploymentBody? then Deployment(o.meta, o.body.spec, o.body.ready) else Deployment(o.meta, EMPTY_SPEC, 0)
  }

  function AsObj(d: Deployment): Obj {
    Obj(d.meta, DeploymentBody(d.spec, d.ready))
  }

  function RestartPods(w: World, r: Request): (World, Outcome) {
    var (w1, live) := Get(w, KeyOf(r, DeploymentStage));
    if live == Err(NotFound) then (w1, Done)
    else if live.Err? then (w1, ApiFailure(live.error))
    else if AsDeployment(live.value).spec.selector.None? then (w1, Panicked)
    else
      var (w2, pods) := ListPods(w1, r.ns, AsDeployment(live.value).spec.selector.value.matchLabels.Content());
      if pods.Err? then (w2, ApiFailure(pods.error)) else DeletePods(w2, pods.value)
  }

  function RewriteConfig(w: World, r: Request, live: Obj, fixed: Obj): (World, Outcome) {
    var (w1, e) := Update(w, KeyOf(r, ConfigMapStage), live, fixed);
    if e.Some? then (w1, ApiFailure(e.value)) else RestartPods(w1, r)
  }

  /** A live ConfigMap: nothing to do, or rewritten plugin data and restarted pods.  Writing
      into data that was never there is a panic. */
  function RepairConfig(c: Config, w: World, r: Request, spec: Spec, live: Obj): (World, Outcome) {
    var d := DataOf(live);
    if Unmarshal(d, TRAFFIC_KEY).Err? then (w, Failed(DataUnparsable(Unmarshal(d, TRAFFIC_KEY).error)))
    else if Unmarshal(d, METRIC_KEY).Err? then (w, Failed(DataUnparsable(Unmarshal(d, METRIC_KEY).error)))
    else if !PluginsDiffer(d, c, spec) then (w, Done)
    else if d.NilData? then (w, Panicked)
    else RewriteConfig(w, r, live, RepairedConfig(live, c, spec))
  }

  function RunConfigMap(c: Config, w: World, r: Request, spec: Spec): (World, Outcome) {
    var k := KeyOf(r, ConfigMapStage);
    if PluginProblem(c, spec).Some? then (w, Failed(PluginProblem(c, spec).value))
    else
      var (w1, live) := Get(w, k);
      if live == Err(NotFound) then
        var (w2, e) := Create(w1, k, Expected(c, r, spec, ConfigMapStage));
        (w2, Finish(e))
      else if live.Err? then (w1, ApiFailure(live.error))
      else RepairConfig(c, w1, r, spec, live.value)
  }

  // ----- Deployment -----

  function CreateDeployment(w: World, r: Request, desired: Deployment): (World, Outcome) {
    var owned := desired.(meta := desired.meta.(owner := Some(Owner(true, r.name))));
    var (w1, e) := Create(w, KeyOf(r, DeploymentStage), AsObj(owned));
    (w1, Finish(e))
  }

  /** A failed normalisation yields the zero Deployment. */
  function NormalOrEmpty(d: Deployment, spec: Spec): Deployment {
    match Normalize(d, spec)
    case Ok(n) => n
    case Err(_) => EMPTY_DEPLOYMENT
  }

  /** A live Deployment that differs: recreate it when the immutable selector changed or it
      has no normal form, otherwise overwrite the operator's fields. */
  function FixDeployment(w: World, r: Request, live: Obj, desired: Deployment, have: Deployment,
                         want: Deployment): (World, Outcome) {
    if have.spec.selector != want.spec.selector then
      var (w1, e) := Delete(w, KeyOf(r, DeploymentStage));
      if e.Some? then (w1, ApiFailure(e.value)) else CreateDeployment(w1, r, desired)
    else
      var (w1, e) := Update(w, KeyOf(r, DeploymentStage), live, AsObj(Overwritten(AsDeployment(live), desired)));
      (w1, Finish(e))
  }

  predicate DeploymentDiffers(live: Obj, desired: Deployment, spec: Spec) {
    Normalize(AsDeployment(live), spec).Err? ||
    NormalOrEmpty(AsDeployment(live), spec) != NormalOrEmpty(desired, spec)
  }

  function DriveDeployment(w: World, r: Request, spec: Spec, desired: Deployment): (World, Outcome) {
    var (w1, live) := Get(w, KeyOf(r, DeploymentStage));
    if live == Err(NotFound) then CreateDeployment(w1, r, desired)
    else if live.Err? then (w1, ApiFailure(live.error))
    else if DeploymentDiffers(live.value, desired, spec) then
      FixDeployment(w1, r, live.value, desired, NormalOrEmpty(AsDeployment(live.value), spec),
                    NormalOrEmpty(desired, spec))
    else (w1, Done)
  }

  function RunDeployment(c: Config, w: World, r: Request, spec: Spec): (World, Outcome) {
    match Desired(c, spec)
    case Err(e) => (w, Failed(e))
    case Ok(desired) => DriveDeployment(w, r, spec, desired)
  }

  // ----- Network policy -----

  function DeleteNetworkPolicy(w: World, r: Request): (World, Outcome) {
    var (w1, live) := Get(w, KeyOf(r, NetworkPolicyStage));
    if live == Err(NotFound) then (w1, Done)
    else if live.Err? then (w1, ApiFailure(live.error))
    else
      var (w2, e) := Delete(w1, KeyOf(r, NetworkPolicyStage));
      (w2, Finish(e))
  }

  function RunNetworkPolicy(c: Config, w: World, r: Request, spec: Spec): (World, Outcome) {
    if spec.NetworkPolicyEnabled() then
      Ensure(w, KeyOf(r, NetworkPolicyStage), Expected(c, r, spec, NetworkPolicyStage), spec)
    else DeleteNetworkPolicy(w, r)
  }

  // ----- The stages in order -----

  /** A stage that drives one object, after removing its opposite-scope counterpart if any. */
  function RunObject(c: Config, w: World, r: Request, spec: Spec, s: Stage): (World, Outcome) {
    match OppositeKey(r, s)
    case None => Ensure(w, KeyOf(r, s), Expected(c, r, spec, s), spec)
    case Some(opposite) => EnsureScoped(w, opposite, KeyOf(r, s), Expected(c, r, spec, s), spec)
  }

  function RunStage(c: Config, w: World, r: Request, spec: Spec, s: Stage): (World, Outcome) {
    match s
    case SecretStage => RunSecret(c, w, r, spec)
    case ConfigMapStage => RunConfigMap(c, w, r, spec)
    case DeploymentStage => RunDeployment(c, w, r, spec)
    case NetworkPolicyStage => RunNetworkPolicy(c, w, r, spec)
    case _ => RunObject(c, w, r, spec, s)
  }

  /** The stages one after the other, up to the first that does not finish. */
  function RunStages(c: Config, w: World, r: Request, spec: Spec, stages: seq<Stage>): (World, Outcome)
    decreases |stages|
  {
    if stages == [] then (w, Done)
    else
      var (w1, o) := RunStage(c, w, r, spec, stages[0]);
      if o != Done then (w1, o) else RunStages(c, w1, r, spec, stages[1..])
  }

  function Pipeline(spec: Spec): seq<Stage> {
    [ServiceAccountStage, if spec.namespaceScoped then RoleStage else ClusterRoleStage,
     AggregateStage(Admin), AggregateStage(Edit), AggregateStage(View),
     if spec.namespaceScoped then RoleBindingStage else ClusterRoleBindingStage,
     SecretStage, ConfigMapStage, DeploymentStage, ServiceStage, NetworkPolicyStage]
  }

  // ----- Admission -----

  function SplitList(s: string): seq<string> {
    var pieces := Split(s, ',');
    seq(|pieces|, i requires 0 <= i < |pieces| => TrimSpace(pieces[i]))
  }

  predicate AllowedNamespace(c: Config, ns: string) {
    ns in SplitList(c.clusterScopedNamespaces)
  }

  /** The first gate: does the CR fit the scope the operator runs in? */
  function ScopeProblem(c: Config, r: Request, spec: Spec): Option<Condition> {
    if c.namespaceScoped then
      if spec.namespaceScoped then None else Some(CreateCondition(Message(NotClusterScoped), [InvalidScope]))
    else if spec.namespaceScoped then Some(CreateCondition(Message(NotNamespaceScoped), [InvalidScope]))
    else if !AllowedNamespace(c, r.ns) then Some(CreateCondition(Message(NamespaceNotListed), [InvalidNamespace]))
    else None
  }

  /** The second gate: is there another cluster-scoped RolloutManager? */
  predicate OtherClusterScoped(rms: map<Request, RolloutManager>, r: Request) {
    exists q | q in rms :: q != r && !rms[q].spec.namespaceScoped
  }

  /** The condition with which a RolloutManager is turned away, if it is. */
  function Verdict(c: Config, rms: map<Request, RolloutManager>, r: Request): Option<Condition>
    requires r in rms
  {
    if ScopeProblem(c, r, rms[r].spec).Some? then ScopeProblem(c, r, rms[r].spec)
    else if !rms[r].spec.namespaceScoped && OtherClusterScoped(rms, r) then
      Some(CreateCondition(Message(NotAlone), [MultipleClusterScoped]))
    else None
  }

  /** Passes both gates. */
  predicate Admitted(c: Config, rms: map<Request, RolloutManager>, r: Request) {
    r in rms && Verdict(c, rms, r).None?
  }

  function Rejection(c: Condition): StatusResult {
    StatusResult(c, Some(Failure), Some(Failure))
  }

  // ----- Status -----

  function PhaseOf(d: Option<Deployment>): Phase {
    if d.None? then Failure
    else if d.value.spec.replicas.None? then Unknown
    else if d.value.ready == d.value.spec.replicas.value then Available
    else Pending
  }

  function PhaseResult(status: Status, phase: Phase): StatusResult {
    StatusResult(CreateCondition(NoMessage, []),
                 if status.rolloutController != phase then Some(phase) else None,
                 if status.phase != phase then Some(phase) else None)
  }

  function ErrorResult(cause: Cause): StatusResult {
    WrapCondition(CreateCondition(Message(cause), []))
  }

  function DeterminePhase(w: World, r: Request, status: Status): (World, StatusResult, Outcome) {
    var (w1, live) := Get(w, KeyOf(r, DeploymentStage));
    if live.Err? && live.error != NotFound then
      (w1, ErrorResult(ApiCause(live.error)), ApiFailure(live.error))
    else
      var phase := PhaseOf(if live.Ok? then Some(AsDeployment(live.value)) else None);
      (w1, PhaseResult(status, phase), Done)
  }

  // ----- One reconcile -----

  function RunAdmitted(c: Config, w: World, r: Request, rm: RolloutManager): (World, StatusResult, Outcome) {
    var (w1, o) := RunStages(c, w, r, rm.spec, Pipeline(rm.spec));
    match o
    case Done => DeterminePhase(w1, r, rm.status)
    case Failed(m) => (w1, ErrorResult(m), o)
    case Panicked => (w1, ErrorResult(Internal), o)
  }

  function ReconcileManager(c: Config, w: World, r: Request, rm: RolloutManager): (World, StatusResult, Outcome) {
    var scope := ScopeProblem(c, r, rm.spec);
    if scope.Some? then (w, Rejection(scope.value), Done)
    else if rm.spec.namespaceScoped then RunAdmitted(c, w, r, rm)
    else
      var (w1, rms) := ListManagers(w);
      if rms.Err? then (w1, ErrorResult(ApiCause(rms.error)), ApiFailure(rms.error))
      else if OtherClusterScoped(rms.value, r) then
        (w1, Rejection(CreateCondition(Message(NotAlone), [MultipleClusterScoped])), Done)
      else RunAdmitted(c, w1, r, rm)
  }

  /** Write the status if it changes.  A panic skips the write, a failed write is the outcome. */
  function WriteResult(w: World, r: Request, rm: RolloutManager, res: StatusResult, o: Outcome): (World, Outcome) {
    if o.Panicked? || StatusSettled(rm.status, res) then (w, o)
    else
      var (w1, e) := UpdateStatus(w, r, rm, NextStatus(rm.status, res, w.now));
      (w1, if e.Some? then ApiFailure(e.value) else o)
  }

  /** Delete the object if it is there; being gone already is fine. */
  function Remove(w: World, k: Key): (World, Outcome) {
    var (w1, live) := Get(w, k);
    if live == Err(NotFound) then (w1, Done)
    else if live.Err? then (w1, ApiFailure(live.error))
    else
      var (w2, e) := Delete(w1, k);
      (w2, if e.Some? && e.value != NotFound then ApiFailure(e.value) else Done)
  }

  function RemoveAll(w: World, keys: seq<Key>): (World, Outcome)
    decreases |keys|
  {
    if keys == [] then (w, Done)
    else
      var (w1, o) := Remove(w, keys[0]);
      if o != Done then (w1, o) else RemoveAll(w1, keys[1..])
  }

  const CLUSTER_SCOPED: seq<Key> :=
    [CLUSTER_ROLE, AggregateKey(Admin), AggregateKey(Edit), AggregateKey(View), CLUSTER_ROLE_BINDING]

  /** What is done for a request whose RolloutManager or namespace no longer exists. */
  function Cleanup(w: World): (World, Outcome) {
    RemoveAll(w, CLUSTER_SCOPED)
  }

  function Reconcile(c: Config, w: World, r: Request): (World, Outcome) {
    var (w1, terminating) := GetNamespace(w, r.ns);
    if terminating == Err(NotFound) then Cleanup(w1)
    else if terminating.Err? then (w1, ApiFailure(terminating.error))
    else if terminating.value then (w1, Done)
    else
      var (w2, rm) := GetManager(w1, r);
      if rm == Err(NotFound) then Cleanup(w2)
      else if rm.Err? then (w2, ApiFailure(rm.error))
      else
        var (w3, res, o) := ReconcileManager(c, w2, r, rm.value);
        WriteResult(w3, r, rm.value, res, o)
  }
}
