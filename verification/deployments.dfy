/** The Rollouts Deployment: how it is generated from the CR, its normal form, the
    field-by-field comparison, and how a live one is overwritten. */
module Deployments {
  import opened GoTypes
  import opened GoStrings
  import opened NamedLists
  import opened RolloutManagers
  import opened Metadata
  import opened Environment

  /** The zero value of a field the operator leaves unset, and what the server fills in. */
  const UNSET: Opaque := 0
  const SERVER_DEFAULT: Opaque := 1

  datatype LabelSelector = LabelSelector(matchLabels: StringMap, matchExpressions: Opaque)

  datatype HTTPGet = HTTPGet(path: string, port: string, scheme: Opaque)
  datatype Probe = Probe(failureThreshold: int, httpGet: Option<HTTPGet>, initialDelay: int, period: int,
                         success: int, timeout: int, rest: Opaque)
  datatype Port = Port(number: int, name: string, rest: Opaque)
  datatype Capabilities = Capabilities(drop: seq<string>, rest: Opaque)
  datatype SecurityContext = SecurityContext(capabilities: Option<Capabilities>, allowEscalation: Option<bool>,
                                             readOnlyRoot: Option<bool>, runAsNonRoot: Option<bool>,
                                             seccomp: Option<string>, rest: Opaque)
  datatype VolumeMount = VolumeMount(name: string, path: string, rest: Opaque)
  datatype Volume = Volume(name: string, source: Opaque)
  datatype Container = Container(
    args: GoSlice<string>, env: GoSlice<EnvVar>, image: string, imagePullPolicy: string,
    livenessProbe: Option<Probe>, name: string, ports: seq<Port>, readinessProbe: Option<Probe>,
    resources: Filled, securityContext: Option<SecurityContext>, mounts: seq<VolumeMount>, rest: Opaque)

  datatype AffinityTerm = AffinityTerm(selector: Option<LabelSelector>, topologyKey: string, rest: Opaque)
  datatype WeightedTerm = WeightedTerm(term: AffinityTerm, weight: int)
  datatype AntiAffinity = AntiAffinity(preferred: seq<WeightedTerm>, required: seq<AffinityTerm>)
  datatype Affinity = Affinity(podAffinity: Option<Opaque>, podAntiAffinity: Option<AntiAffinity>,
                               nodeAffinity: Option<Opaque>)

  datatype PodSecurity = PodSecurity(runAsNonRoot: Option<bool>, rest: Opaque)
  datatype PodSpec = PodSpec(
    nodeSelector: StringMap, tolerations: GoSlice<Opaque>, serviceAccount: string, security: Option<PodSecurity>,
    volumes: seq<Volume>, containers: seq<Container>, affinity: Option<Affinity>, rest: Opaque)
  datatype PodTemplate = PodTemplate(labels: StringMap, annotations: StringMap, pod: PodSpec, rest: Opaque)
  datatype Strategy = Strategy(kind: string, rollingUpdate: Opaque)
  datatype DeploymentSpec = DeploymentSpec(
    replicas: Option<int>, selector: Option<LabelSelector>, template: PodTemplate, strategy: Strategy, rest: Opaque)
  datatype Deployment = Deployment(meta: Meta, spec: DeploymentSpec, ready: int)

  const EMPTY_POD := PodSpec(NilMap, NilSlice, "", None, [], [], None, UNSET)
  const EMPTY_SPEC := DeploymentSpec(None, None, PodTemplate(NilMap, NilMap, EMPTY_POD, UNSET), Strategy("", UNSET),
                                     UNSET)
  const EMPTY_DEPLOYMENT := Deployment(BARE_META, EMPTY_SPEC, 0)

  // ----- Generation -----

  /** An extra flag that repeats one of the operator's own arguments. */
  predicate Clashes(extra: string, args: seq<string>) {
    |extra| > 2 && extra[..2] == "--" && extra in args
  }

  function OwnArgs(spec: Spec): seq<string> {
    (if spec.namespaceScoped then ["--namespaced"] else []) +
    (if spec.HighlyAvailable() then ["--leader-elect", "true"] else [])
  }

  function CommandArgs(spec: Spec): Result<seq<string>, Cause> {
    var args := OwnArgs(spec);
    if exists extra | extra in spec.extraCommandArgs :: Clashes(extra, args) then Err(DuplicateArgument)
    else Ok(args + spec.extraCommandArgs)
  }

  const DEFAULT_IMAGE := "quay.io/argoproj/argo-rollouts"
  const DEFAULT_VERSION := "v1.9.1"

  function CombineImageTag(image: string, tag: string): string {
    if Contains(tag, ":") then image + "@" + tag
    else if |tag| > 0 then image + ":" + tag
    else image
  }

  function ContainerImage(c: Config, spec: Spec): Result<string, Cause> {
    if c.imageEnv != "" && spec.image == "" && spec.version == "" then Ok(c.imageEnv)
    else if c.imageEnv != "" && spec.image == "" && c.imageEnvBase.None? then Err(ImageUnparsable)
    else
      var given := if c.imageEnv != "" && spec.image == "" then c.imageEnvBase.value else spec.image;
      var image := if given == "" then DEFAULT_IMAGE else given;
      var tag := if spec.version == "" then DEFAULT_VERSION else spec.version;
      Ok(CombineImageTag(image, tag))
  }

  function PullPolicy(c: Config, spec: Spec): Result<string, Cause> {
    if spec.imagePullPolicy != "" then Ok(spec.imagePullPolicy)
    else if c.pullPolicyEnv == "" then Ok("IfNotPresent")
    else if c.pullPolicyEnv in ["Always", "IfNotPresent", "Never"] then Ok(c.pullPolicyEnv)
    else Err(PullPolicyInvalid)
  }

  const DEFAULT_RESOURCES := AsStored(2)
  const EMPTY_DIR: Opaque := 3

  function RolloutsContainer(c: Config, spec: Spec): Result<Container, Cause> {
    match CommandArgs(spec)
    case Err(e) => Err(e)
    case Ok(args) =>
      match ContainerImage(c, spec)
      case Err(e) => Err(e)
      case Ok(image) =>
        match PullPolicy(c, spec)
        case Err(e) => Err(e)
        case Ok(policy) =>
          Ok(Container(
            Slice(args), Slice(EnvMerged(spec.env, c.proxyEnv, false)), image, policy,
            Some(Probe(3, Some(HTTPGet("/healthz", "healthz", UNSET)), 30, 20, 1, 10, UNSET)),
            "argo-rollouts", [Port(8080, "healthz", UNSET), Port(8090, "metrics", UNSET)], None,
            spec.controllerResources.GetOr(DEFAULT_RESOURCES),
            Some(SecurityContext(Some(Capabilities(["ALL"], UNSET)), Some(false), Some(true), Some(true),
                                 Some("RuntimeDefault"), UNSET)),
            [VolumeMount("plugin-bin", "/home/argo-rollouts/plugin-bin", UNSET), VolumeMount("tmp", "/tmp", UNSET)],
            UNSET))
  }

  function PodLabels(spec: Spec): map<string, string> {
    map[NAME_LABEL := RESOURCE_NAME] + spec.ExtraLabels()
  }

  function DesiredAffinity(spec: Spec): Option<Affinity> {
    if !spec.HighlyAvailable() then None
    else
      var selector := Some(LabelSelector(Map(PodLabels(spec)), UNSET));
      Some(Affinity(None, Some(AntiAffinity(
        [WeightedTerm(AffinityTerm(selector, "topology.kubernetes.io/zone", UNSET), 100)],
        [AffinityTerm(selector, "kubernetes.io/hostname", UNSET)])), None))
  }

  function DesiredNodeSelector(spec: Spec): map<string, string> {
    map["kubernetes.io/os" := "linux"] +
    (if spec.nodePlacement.None? then map[] else spec.nodePlacement.value.nodeSelector.Content())
  }

  function DesiredTolerations(spec: Spec): GoSlice<Opaque> {
    if spec.nodePlacement.None? then NilSlice else spec.nodePlacement.value.tolerations
  }

  function DesiredPod(spec: Spec, container: Container): PodSpec {
    PodSpec(Map(DesiredNodeSelector(spec)), DesiredTolerations(spec), RESOURCE_NAME,
            Some(PodSecurity(Some(true), UNSET)),
            [Volume("plugin-bin", EMPTY_DIR), Volume("tmp", EMPTY_DIR)], [container], DesiredAffinity(spec), UNSET)
  }

  function Desired(c: Config, spec: Spec): Result<Deployment, Cause> {
    match RolloutsContainer(c, spec)
    case Err(e) => Err(e)
    case Ok(container) =>
      var labels := Map(PodLabels(spec));
      Ok(Deployment(DefaultMeta(spec), DeploymentSpec(
        Some(if spec.HighlyAvailable() then 2 else 1), Some(LabelSelector(labels, UNSET)),
        PodTemplate(labels, Map(spec.ExtraAnnotations()), DesiredPod(spec, container), UNSET),
        Strategy("RollingUpdate", UNSET), UNSET), 0))
  }

  method GetRolloutsCommandArgs(spec: Spec) returns (r: Result<seq<string>, Cause>)
    ensures r == CommandArgs(spec)
  {
    var args: seq<string> := [];
    if spec.namespaceScoped {
      args := args + ["--namespaced"];
    }
    if spec.HighlyAvailable() {
      args := args + ["--leader-elect", "true"];
    }
    assert args == OwnArgs(spec);
    for i := 0 to |spec.extraCommandArgs|
      invariant forall j | 0 <= j < i :: !Clashes(spec.extraCommandArgs[j], args)
    {
      var extra := spec.extraCommandArgs[i];
      if Clashes(extra, args) {
        assert extra in spec.extraCommandArgs && Clashes(extra, OwnArgs(spec));
        return Err(DuplicateArgument);
      }
    }
    r := Ok(args + spec.extraCommandArgs);
  }

  method GenerateDesiredRolloutsDeployment(c: Config, spec: Spec) returns (r: Result<Deployment, Cause>)
    ensures r == Desired(c, spec)
  {
    var desired := EMPTY_DEPLOYMENT;
    var meta := new LiveMeta(BARE_META);
    meta.SetDefaults(spec);
    desired := desired.(meta := meta.Value());

    var labels := map[NAME_LABEL := RESOURCE_NAME];
    var annotations: map<string, string> := map[];
    if spec.additionalMetadata.Some? {
      labels := CopyInto(labels, spec.ExtraLabels());
      annotations := CopyInto(annotations, spec.ExtraAnnotations());
    }
    assert labels == PodLabels(spec) && annotations == spec.ExtraAnnotations();

    var pod := EMPTY_POD.(nodeSelector := Map(map["kubernetes.io/os" := "linux"]));
    var selector := LabelSelector(Map(labels), UNSET);
    if spec.HighlyAvailable() {
      pod := pod.(affinity := Some(Affinity(None, Some(AntiAffinity(
        [WeightedTerm(AffinityTerm(Some(selector), "topology.kubernetes.io/zone", UNSET), 100)],
        [AffinityTerm(Some(selector), "kubernetes.io/hostname", UNSET)])), None)));
    }
    if spec.nodePlacement.Some? {
      var nodes := AppendStringMap(pod.nodeSelector, spec.nodePlacement.value.nodeSelector);
      pod := pod.(nodeSelector := nodes, tolerations := spec.nodePlacement.value.tolerations);
    } else {
      assert DesiredNodeSelector(spec) == map["kubernetes.io/os" := "linux"];
    }
    pod := pod.(security := Some(PodSecurity(Some(true), UNSET)));
    pod := pod.(serviceAccount := RESOURCE_NAME);
    var container := GenerateRolloutsContainer(c, spec);
    if container.Err? {
      return Err(container.error);
    }
    pod := pod.(containers := [container.value]);
    pod := pod.(volumes := [Volume("plugin-bin", EMPTY_DIR), Volume("tmp", EMPTY_DIR)]);
    assert pod == DesiredPod(spec, container.value);
    r := Ok(desired.(spec := DeploymentSpec(
      Some(if spec.HighlyAvailable() then 2 else 1), Some(selector),
      PodTemplate(Map(labels), Map(annotations), pod, UNSET), Strategy("RollingUpdate", UNSET), UNSET)));
  }

  method GenerateRolloutsContainer(c: Config, spec: Spec) returns (r: Result<Container, Cause>)
    ensures r == RolloutsContainer(c, spec)
  {
    var env := EnvMerge(spec.env, c.proxyEnv, false);
    var args := GetRolloutsCommandArgs(spec);
    if args.Err? {
      return Err(args.error);
    }
    var image := ContainerImage(c, spec);
    if image.Err? {
      return Err(image.error);
    }
    var policy := PullPolicy(c, spec);
    if policy.Err? {
      return Err(policy.error);
    }
    r := Ok(Container(
      Slice(args.value), Slice(env), image.value, policy.value,
      Some(Probe(3, Some(HTTPGet("/healthz", "healthz", UNSET)), 30, 20, 1, 10, UNSET)),
      "argo-rollouts", [Port(8080, "healthz", UNSET), Port(8090, "metrics", UNSET)], None,
      spec.controllerResources.GetOr(DEFAULT_RESOURCES),
      Some(SecurityContext(Some(Capabilities(["ALL"], UNSET)), Some(false), Some(true), Some(true),
                           Some("RuntimeDefault"), UNSET)),
      [VolumeMount("plugin-bin", "/home/argo-rollouts/plugin-bin", UNSET), VolumeMount("tmp", "/tmp", UNSET)], UNSET));
  }

  // ----- Normal form -----

  /** Why a Deployment has no normal form. */
  datatype Abnormality =
    | SelectorMissing | PodSecurityMissing | VolumesWrong | ContainersWrong | ProbeMissing | HttpGetMissing
    | PortsWrong | SecurityMissing | MountsWrong | PreferredWrong | RequiredWrong

  function NonNil<T>(s: GoSlice<T>): GoSlice<T> {
    Slice(s.Elems())
  }

  function NormalContainer(input: Container): Result<Container, Abnormality> {
    if input.livenessProbe.None? then Err(ProbeMissing)
    else if input.livenessProbe.value.httpGet.None? then Err(HttpGetMissing)
    else if |input.ports| != 2 then Err(PortsWrong)
    else if input.securityContext.None? || input.securityContext.value.capabilities.None? then Err(SecurityMissing)
    else if |input.mounts| != 2 then Err(MountsWrong)
    else
      var probe, security := input.livenessProbe.value, input.securityContext.value;
      Ok(Container(
        NonNil(input.args), NonNil(input.env), input.image, input.imagePullPolicy,
        Some(probe.(httpGet := Some(probe.httpGet.value.(scheme := UNSET)), rest := UNSET)),
        input.name, [input.ports[0].(rest := UNSET), input.ports[1].(rest := UNSET)],
        input.readinessProbe, input.resources,
        Some(security.(capabilities := Some(security.capabilities.value.(rest := UNSET)), rest := UNSET)),
        [input.mounts[0].(rest := UNSET), input.mounts[1].(rest := UNSET)], UNSET))
  }

  /** The anti-affinity terms keep topology and weight; their selector is the Deployment's own. */
  function NormalAffinity(input: Option<Affinity>, selector: LabelSelector): Result<Option<Affinity>, Abnormality> {
    if input.None? then Ok(None)
    else if input.value.podAntiAffinity.None? then Ok(Some(Affinity(input.value.podAffinity, None, None)))
    else
      var anti := input.value.podAntiAffinity.value;
      if |anti.preferred| != 1 then Err(PreferredWrong)
      else if |anti.required| != 1 then Err(RequiredWrong)
      else Ok(Some(Affinity(input.value.podAffinity, Some(AntiAffinity(
        [WeightedTerm(AffinityTerm(Some(selector), anti.preferred[0].term.topologyKey, UNSET),
                      anti.preferred[0].weight)],
        [AffinityTerm(Some(selector), anti.required[0].topologyKey, UNSET)])), None)))
  }

  function NormalMeta(m: Meta, spec: Spec): Meta {
    BARE_META.(labels := Restrict(m.labels, DefaultLabels(spec).Keys),
               annotations := Restrict(m.annotations, spec.ExtraAnnotations().Keys))
  }

  function NormalSpec(input: DeploymentSpec, selector: LabelSelector, container: Container,
                      affinity: Option<Affinity>): DeploymentSpec
    requires input.template.pod.security.Some? && |input.template.pod.volumes| == 2
  {
    var pod := input.template.pod;
    DeploymentSpec(
      Some(input.replicas.GetOr(1)), Some(selector),
      PodTemplate(NormalizeMap(input.template.labels), NormalizeMap(input.template.annotations),
                  PodSpec(pod.nodeSelector, pod.tolerations, pod.serviceAccount,
                          Some(PodSecurity(pod.security.value.runAsNonRoot, UNSET)),
                          [pod.volumes[0], pod.volumes[1]], [container], affinity, UNSET), UNSET),
      Strategy(input.strategy.kind, UNSET), UNSET)
  }

  function Normalize(d: Deployment, spec: Spec): Result<Deployment, Abnormality> {
    var input, pod := d.spec, d.spec.template.pod;
    if input.selector.None? then Err(SelectorMissing)
    else if pod.security.None? then Err(PodSecurityMissing)
    else if |pod.volumes| != 2 then Err(VolumesWrong)
    else if |pod.containers| != 1 then Err(ContainersWrong)
    else
      match NormalContainer(pod.containers[0])
      case Err(e) => Err(e)
      case Ok(container) =>
        var selector := LabelSelector(NormalizeMap(input.selector.value.matchLabels), UNSET);
        match NormalAffinity(pod.affinity, selector)
        case Err(e) => Err(e)
        case Ok(affinity) =>
          Ok(Deployment(NormalMeta(d.meta, spec), NormalSpec(input, selector, container, affinity), 0))
  }

  method NormalizeDeployment(d: Deployment, spec: Spec) returns (r: Result<Deployment, Abnormality>)
    ensures r == Normalize(d, spec)
  {
    var standard := new LiveMeta(d.meta);
    standard.SetDefaults(spec);
    var labelKeys := MapValue(standard.labels).Content().Keys;
    var annotationKeys := MapValue(standard.annotations).Content().Keys;
    var copy := new LiveMeta(d.meta);
    if copy.labels != null {
      copy.labels.KeepOnly(k => k in labelKeys);
    }
    if copy.annotations != null {
      copy.annotations.KeepOnly(k => k in annotationKeys);
    }
    var meta := BARE_META.(labels := MapValue(copy.labels), annotations := MapValue(copy.annotations));
    assert meta.labels == Restrict(d.meta.labels, DefaultLabels(spec).Keys);
    assert meta.annotations == Restrict(d.meta.annotations, spec.ExtraAnnotations().Keys);
    var pod := d.spec.template.pod;
    if d.spec.selector.None? {
      return Err(SelectorMissing);
    }
    if pod.security.None? {
      return Err(PodSecurityMissing);
    }
    if |pod.volumes| != 2 {
      return Err(VolumesWrong);
    }
    if |pod.containers| != 1 {
      return Err(ContainersWrong);
    }
    var container := NormalContainer(pod.containers[0]);
    if container.Err? {
      return Err(container.error);
    }
    var selector := LabelSelector(NormalizeMap(d.spec.selector.value.matchLabels), UNSET);
    var affinity := NormalAffinity(pod.affinity, selector);
    if affinity.Err? {
      return Err(affinity.error);
    }
    r := Ok(Deployment(meta, NormalSpec(d.spec, selector, container.value, affinity.value), 0));
  }

  /** The first field in which two Deployments differ. */
  datatype Difference =
    | Same
    | ContainersField | ServiceAccountField | StrategyField | LabelsField | AnnotationsField | TemplateLabelsField
    | TemplateAnnotationsField | SelectorField | NodeSelectorField | TolerationsField | SecurityContextField
    | VolumesField | ReplicasField | AffinityField

  function IdentifyDifference(x: Deployment, y: Deployment): Difference {
    var xPod, yPod := x.spec.template.pod, y.spec.template.pod;
    if xPod.containers != yPod.containers then ContainersField
    else if xPod.serviceAccount != yPod.serviceAccount then ServiceAccountField
    else if x.spec.strategy != y.spec.strategy then StrategyField
    else if x.meta.labels != y.meta.labels then LabelsField
    else if x.meta.annotations != y.meta.annotations then AnnotationsField
    else if x.spec.template.labels != y.spec.template.labels then TemplateLabelsField
    else if x.spec.template.annotations != y.spec.template.annotations then TemplateAnnotationsField
    else if x.spec.selector != y.spec.selector then SelectorField
    else if xPod.nodeSelector != yPod.nodeSelector then NodeSelectorField
    else if xPod.tolerations != yPod.tolerations then TolerationsField
    else if xPod.security != yPod.security then SecurityContextField
    else if xPod.volumes != yPod.volumes then VolumesField
    else if x.spec.replicas != y.spec.replicas then ReplicasField
    else if xPod.affinity != yPod.affinity then AffinityField
    else Same
  }

  /** A live Deployment with the operator's fields overwritten by the desired ones. */
  function Overwritten(live: Deployment, desired: Deployment): Deployment {
    var pod, want := live.spec.template.pod, desired.spec.template.pod;
    live.(
      meta := live.meta.(labels := MergeMaps(live.meta.labels, desired.meta.labels),
                         annotations := MergeMaps(live.meta.annotations, desired.meta.annotations)),
      spec := live.spec.(
        strategy := desired.spec.strategy,
        replicas := desired.spec.replicas,
        selector := desired.spec.selector,
        template := live.spec.template.(
          labels := desired.spec.template.labels,
          annotations := desired.spec.template.annotations,
          pod := pod.(containers := want.containers, serviceAccount := want.serviceAccount, affinity := want.affinity,
                      nodeSelector := want.nodeSelector, tolerations := want.tolerations,
                      security := want.security, volumes := want.volumes))))
  }

  // ----- What the API server does to a written Deployment -----

  function Defaulted(v: Opaque): Opaque {
    if v == UNSET then SERVER_DEFAULT else v
  }

  function StoredProbe(p: Probe): Probe {
    p.(rest := Defaulted(p.rest),
       httpGet := if p.httpGet.None? then None else Some(p.httpGet.value.(scheme := Defaulted(p.httpGet.value.scheme))))
  }

  function StoredVar(e: EnvVar): EnvVar {
    Named(e.name, e.item.(valueFrom := InStore(e.item.valueFrom)))
  }

  function StoredVars(env: seq<EnvVar>): seq<EnvVar> {
    seq(|env|, i requires 0 <= i < |env| => StoredVar(env[i]))
  }

  function StoredEnv(env: GoSlice<EnvVar>): GoSlice<EnvVar> {
    OmitEmptySlice(Slice(StoredVars(env.Elems())))
  }

  function StoredContainer(c: Container): Container {
    c.(args := OmitEmptySlice(c.args), env := StoredEnv(c.env), resources := InStore(c.resources),
       rest := Defaulted(c.rest),
       livenessProbe := if c.livenessProbe.None? then None else Some(StoredProbe(c.livenessProbe.value)),
       ports := seq(|c.ports|, i requires 0 <= i < |c.ports| => c.ports[i].(rest := Defaulted(c.ports[i].rest))))
  }

  function StoredSelector(s: LabelSelector): LabelSelector {
    s.(matchLabels := OmitEmpty(s.matchLabels))
  }

  function StoredPod(p: PodSpec): PodSpec {
    p.(nodeSelector := OmitEmpty(p.nodeSelector), tolerations := OmitEmptySlice(p.tolerations),
       rest := Defaulted(p.rest),
       containers := seq(|p.containers|, i requires 0 <= i < |p.containers| => StoredContainer(p.containers[i])))
  }

  /** The CR gives resources, or the source of an environment variable, in another form than
      the one the server stores. */
  predicate ServerCompletes(c: Config, spec: Spec) {
    spec.controllerResources.GetOr(DEFAULT_RESOURCES).AsSent? ||
    exists e | e in EnvMerged(spec.env, c.proxyEnv, false) :: e.item.valueFrom.AsSent?
  }

  /** Empty maps and slices come back nil; unset fields outside the normal form come back filled. */
  function StoredSpec(s: DeploymentSpec): DeploymentSpec {
    DeploymentSpec(
      s.replicas, if s.selector.None? then None else Some(StoredSelector(s.selector.value)),
      s.template.(labels := OmitEmpty(s.template.labels), annotations := OmitEmpty(s.template.annotations),
                  pod := StoredPod(s.template.pod)),
      s.strategy.(rollingUpdate := Defaulted(s.strategy.rollingUpdate)), Defaulted(s.rest))
  }

  function StoredDeployment(d: Deployment): Deployment {
    d.(meta := StoredMeta(d.meta), spec := StoredSpec(d.spec))
  }

  // ----- Properties -----

  /** Normalising twice is normalising once, for every Deployment and CR. */
  lemma NormalizeIdempotent(d: Deployment, spec: Spec)
    requires Normalize(d, spec).Ok?
    ensures Normalize(Normalize(d, spec).value, spec) == Normalize(d, spec)
  {
    var n := Normalize(d, spec).value;
    RestrictTwice(d.meta.labels, DefaultLabels(spec).Keys);
    RestrictTwice(d.meta.annotations, spec.ExtraAnnotations().Keys);
    assert NormalMeta(n.meta, spec) == n.meta;
  }

  lemma RestrictTwice(m: StringMap, keep: set<string>)
    ensures Restrict(Restrict(m, keep), keep) == Restrict(m, keep)
  {
  }

  /** Everything the operator generates is already in normal form. */
  lemma DesiredIsNormal(c: Config, spec: Spec)
    requires Desired(c, spec).Ok?
    ensures Normalize(Desired(c, spec).value, spec) == Ok(Desired(c, spec).value)
  {
    var d := Desired(c, spec).value;
    assert Restrict(d.meta.labels, DefaultLabels(spec).Keys) == d.meta.labels;
    assert Restrict(d.meta.annotations, spec.ExtraAnnotations().Keys) == d.meta.annotations;
    assert NormalContainer(d.spec.template.pod.containers[0]) == Ok(d.spec.template.pod.containers[0]);
    var selector := LabelSelector(NormalizeMap(d.spec.selector.value.matchLabels), UNSET);
    assert NormalAffinity(d.spec.template.pod.affinity, selector) == Ok(d.spec.template.pod.affinity);
  }

  /** On normal forms the field-by-field comparison misses nothing. */
  lemma DifferenceIsComplete(x: Deployment, xSpec: Spec, y: Deployment, ySpec: Spec)
    requires Normalize(x, xSpec).Ok? && Normalize(y, ySpec).Ok?
    ensures IdentifyDifference(Normalize(x, xSpec).value, Normalize(y, ySpec).value) == Same <==>
            Normalize(x, xSpec).value == Normalize(y, ySpec).value
  {
  }
}
