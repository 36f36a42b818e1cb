/** What the Rollouts controller is run with: the contents of the Deployment, spelled out; which live
    Deployments are left alone; and that every finished run of the stage leaves these contents. */
module Workloads {
  import opened GoTypes
  import opened GoStrings
  import opened NamedLists
  import opened RolloutManagers
  import opened Metadata
  import opened Environment
  import opened Deployments
  import opened Cluster
  import opened Operator
  import opened Settling
  import opened Convergence
  import opened Traces

  /** The labels and annotations that the CR asks for. */
  function AskedLabels(spec: Spec): map<string, string> {
    match spec.additionalMetadata
    case None => map[]
    case Some(m) => m.labels.Content()
  }

  function AskedAnnotations(spec: Spec): map<string, string> {
    match spec.additionalMetadata
    case None => map[]
    case Some(m) => m.annotations.Content()
  }

  /** The keys of the labels that every object gets. */
  const STANDARD_KEYS := {"app.kubernetes.io/name", "app.kubernetes.io/part-of", "app.kubernetes.io/component"}

  // ----- The container -----

  /** The arguments: the scope, then leader election, then what the CR adds, in its order. */
  predicate RunsWithArgs(spec: Spec, args: seq<string>) {
    var scope := if spec.namespaceScoped then 1 else 0;
    var election := if spec.ha == Some(true) then 2 else 0;
    |args| == scope + election + |spec.extraCommandArgs| &&
    (spec.namespaceScoped ==> args[0] == "--namespaced") &&
    (spec.ha == Some(true) ==> args[scope] == "--leader-elect" && args[scope + 1] == "true") &&
    forall i | 0 <= i < |spec.extraCommandArgs| :: args[scope + election + i] == spec.extraCommandArgs[i]
  }

  /** Two variables that the server stores alike. */
  predicate SameVar(a: Option<EnvVar>, b: Option<EnvVar>) {
    (a.Some? <==> b.Some?) &&
    (a.Some? ==> a.value.name == b.value.name && a.value.item.value == b.value.item.value &&
                 InStore(a.value.item.valueFrom) == InStore(b.value.item.valueFrom))
  }

  /** The environment, sorted: the CR's last variable of each name, and of the proxy variables those
      that the CR does not name. */
  ghost predicate RunsWithEnv(spec: Spec, proxy: seq<EnvVar>, env: seq<EnvVar>) {
    StrictlySorted(env) &&
    forall name ::
      SameVar(Find(env, name), if FindLast(spec.env, name).Some? then FindLast(spec.env, name) else Find(proxy, name))
  }

  /** The name of the image: the CR's, or the one in the operator's environment, or the default. */
  predicate IsBase(c: Config, spec: Spec, base: string) {
    if spec.image != "" then base == spec.image
    else if c.imageEnv != "" && c.imageEnvBase != Some("") then Some(base) == c.imageEnvBase
    else base == "quay.io/argoproj/argo-rollouts"
  }

  predicate IsTagged(image: string, base: string, tag: string) {
    image == base + (if ':' in tag then "@" else ":") + tag
  }

  /** The image of the operator's environment stands as it is if the CR names neither image nor version. */
  ghost predicate RunsImage(c: Config, spec: Spec, image: string) {
    if spec.image == "" && spec.version == "" && c.imageEnv != "" then image == c.imageEnv
    else
      exists base ::
        IsBase(c, spec, base) && IsTagged(image, base, if spec.version != "" then spec.version else "v1.9.1")
  }

  /** The pull policy, by the same order of priority. */
  predicate RunsPullPolicy(c: Config, spec: Spec, policy: string) {
    if spec.imagePullPolicy != "" then policy == spec.imagePullPolicy
    else if c.pullPolicyEnv != "" then policy == c.pullPolicyEnv
    else policy == "IfNotPresent"
  }

  predicate IsProbe(p: Option<Probe>) {
    p.Some? && p.value.httpGet.Some? && p.value.httpGet.value.path == "/healthz" &&
    p.value.httpGet.value.port == "healthz" && p.value.failureThreshold == 3 && p.value.initialDelay == 30 &&
    p.value.period == 20 && p.value.success == 1 && p.value.timeout == 10
  }

  predicate IsConfined(s: Option<SecurityContext>) {
    s.Some? && s.value.capabilities.Some? && s.value.capabilities.value.drop == ["ALL"] &&
    s.value.allowEscalation == Some(false) && s.value.readOnlyRoot == Some(true) &&
    s.value.runAsNonRoot == Some(true) && s.value.seccomp == Some("RuntimeDefault")
  }

  ghost predicate RunsContainer(c: Config, spec: Spec, k: Container) {
    k.name == "argo-rollouts" && RunsWithArgs(spec, k.args.Elems()) && RunsWithEnv(spec, c.proxyEnv, k.env.Elems()) &&
    RunsImage(c, spec, k.image) && RunsPullPolicy(c, spec, k.imagePullPolicy) &&
    IsProbe(k.livenessProbe) && k.readinessProbe == None && IsConfined(k.securityContext) &&
    |k.ports| == 2 && k.ports[0].number == 8080 && k.ports[0].name == "healthz" &&
    k.ports[1].number == 8090 && k.ports[1].name == "metrics" &&
    |k.mounts| == 2 && k.mounts[0].name == "plugin-bin" && k.mounts[0].path == "/home/argo-rollouts/plugin-bin" &&
    k.mounts[1].name == "tmp" && k.mounts[1].path == "/tmp" &&
    InStore(k.resources) == InStore(spec.controllerResources.GetOr(DEFAULT_RESOURCES))
  }

  // ----- The pods and the Deployment -----

  /** With high availability: on different hosts, and if possible in different zones. */
  predicate IsSpread(spec: Spec, a: Option<Affinity>) {
    if spec.ha != Some(true) then a == None
    else
      a.Some? && a.value.podAffinity == None && a.value.podAntiAffinity.Some? &&
      var anti := a.value.podAntiAffinity.value;
      |anti.preferred| == 1 && anti.preferred[0].weight == 100 &&
      anti.preferred[0].term.topologyKey == "topology.kubernetes.io/zone" &&
      |anti.required| == 1 && anti.required[0].topologyKey == "kubernetes.io/hostname"
  }

  function OwnPodLabels(spec: Spec): map<string, string> {
    map["app.kubernetes.io/name" := "argo-rollouts"] + AskedLabels(spec)
  }

  /** Linux nodes, unless the CR's node placement says otherwise. */
  predicate IsPlaced(spec: Spec, pod: PodSpec) {
    pod.nodeSelector.Content() == map["kubernetes.io/os" := "linux"] +
      (match spec.nodePlacement case None => map[] case Some(p) => p.nodeSelector.Content()) &&
    pod.tolerations.Elems() == match spec.nodePlacement case None => [] case Some(p) => p.tolerations.Elems()
  }

  ghost predicate RunsPod(c: Config, spec: Spec, pod: PodSpec) {
    pod.serviceAccount == "argo-rollouts" && pod.security.Some? && pod.security.value.runAsNonRoot == Some(true) &&
    IsPlaced(spec, pod) && IsSpread(spec, pod.affinity) &&
    pod.volumes == [Volume("plugin-bin", EMPTY_DIR), Volume("tmp", EMPTY_DIR)] &&
    |pod.containers| == 1 && RunsContainer(c, spec, pod.containers[0])
  }

  ghost predicate Runs(c: Config, spec: Spec, d: DeploymentSpec) {
    d.replicas.GetOr(1) == (if spec.ha == Some(true) then 2 else 1) && d.strategy.kind == "RollingUpdate" &&
    d.selector.Some? && d.selector.value.matchLabels.Content() == OwnPodLabels(spec) &&
    d.template.labels.Content() == OwnPodLabels(spec) &&
    d.template.annotations.Content() == AskedAnnotations(spec) &&
    RunsPod(c, spec, d.template.pod)
  }

  /** The three standard labels, unless the CR gives other values, and what the CR adds. */
  predicate Carried(spec: Spec, m: Meta) {
    var labels, annotations := m.labels.Content(), m.annotations.Content();
    (forall k | k in AskedLabels(spec) :: k in labels && labels[k] == AskedLabels(spec)[k]) &&
    (forall k | k in STANDARD_KEYS ::
       k in labels && (k !in AskedLabels(spec) ==> labels[k] == "argo-rollouts")) &&
    (forall k | k in AskedAnnotations(spec) :: k in annotations && annotations[k] == AskedAnnotations(spec)[k])
  }

  // ----- What is generated -----

  lemma ColonIsContained(tag: string)
    ensures Contains(tag, ":") <==> ':' in tag
  {
    if ':' in tag {
      var i :| 0 <= i < |tag| && tag[i] == ':';
      assert OccursAt(tag, ":", i);
    }
    if Contains(tag, ":") {
      var i :| 0 <= i <= |tag| && OccursAt(tag, ":", i);
      assert tag[i..i + 1][0] == ':';
    }
  }

  lemma ImageRuns(c: Config, spec: Spec)
    requires ContainerImage(c, spec).Ok?
    ensures RunsImage(c, spec, ContainerImage(c, spec).value)
  {
    if !(spec.image == "" && spec.version == "" && c.imageEnv != "") {
      var given := if c.imageEnv != "" && spec.image == "" then c.imageEnvBase.value else spec.image;
      var base := if given == "" then "quay.io/argoproj/argo-rollouts" else given;
      var tag := if spec.version == "" then "v1.9.1" else spec.version;
      ColonIsContained(tag);
      assert ContainerImage(c, spec).value == CombineImageTag(base, tag);
      assert IsBase(c, spec, base) && IsTagged(ContainerImage(c, spec).value, base, tag);
    }
  }

  lemma EnvRuns(c: Config, spec: Spec)
    ensures RunsWithEnv(spec, c.proxyEnv, EnvMerged(spec.env, c.proxyEnv, false))
  {
    EnvMergeWinners(spec.env, c.proxyEnv, false, "");
    forall name ensures Find(EnvMerged(spec.env, c.proxyEnv, false), name) ==
        if FindLast(spec.env, name).Some? then FindLast(spec.env, name) else Find(c.proxyEnv, name) {
      EnvMergeWinners(spec.env, c.proxyEnv, false, name);
    }
  }

  lemma ContainerRuns(c: Config, spec: Spec)
    requires RolloutsContainer(c, spec).Ok?
    ensures RunsContainer(c, spec, RolloutsContainer(c, spec).value)
  {
    ImageRuns(c, spec);
    EnvRuns(c, spec);
    ArgsRun(spec);
  }

  lemma ArgsRun(spec: Spec)
    ensures CommandArgs(spec).Ok? ==> RunsWithArgs(spec, CommandArgs(spec).value)
  {
  }

  lemma PodRuns(c: Config, spec: Spec)
    requires RolloutsContainer(c, spec).Ok?
    ensures RunsPod(c, spec, DesiredPod(spec, RolloutsContainer(c, spec).value))
  {
    ContainerRuns(c, spec);
  }

  lemma DefaultsAreCarried(spec: Spec)
    ensures Carried(spec, DefaultMeta(spec))
  {
  }

  /** The generated Deployment, spelled out. */
  lemma DesiredRuns(c: Config, spec: Spec)
    requires Desired(c, spec).Ok?
    ensures Runs(c, spec, Desired(c, spec).value.spec) && Carried(spec, Desired(c, spec).value.meta)
  {
    PodRuns(c, spec);
    DefaultsAreCarried(spec);
  }

  lemma FlagsOf(spec: Spec, args: seq<string>)
    requires RunsWithArgs(spec, args) && spec.extraCommandArgs == []
    ensures ("--namespaced" in args <==> spec.namespaceScoped) && ("--leader-elect" in args <==> spec.ha == Some(true))
  {
    assert forall i | 0 <= i < |args| && args[i] == "--namespaced" :: i == 0 && spec.namespaceScoped;
    assert forall i | 0 <= i < |args| && args[i] == "--leader-elect" :: spec.ha == Some(true);
  }

  /** Without extra arguments, a flag is there exactly if it is meant. */
  lemma FlagsExactly(c: Config, spec: Spec)
    requires Desired(c, spec).Ok? && spec.extraCommandArgs == []
    ensures var args := Desired(c, spec).value.spec.template.pod.containers[0].args.Elems();
            ("--namespaced" in args <==> spec.namespaceScoped) && ("--leader-elect" in args <==> spec.ha == Some(true))
  {
    DesiredRuns(c, spec);
    FlagsOf(spec, Desired(c, spec).value.spec.template.pod.containers[0].args.Elems());
  }

  /** An extra argument that repeats one of the operator's own flags. */
  predicate Repeats(spec: Spec) {
    (spec.namespaceScoped && "--namespaced" in spec.extraCommandArgs) ||
    (spec.ha == Some(true) && "--leader-elect" in spec.extraCommandArgs)
  }

  predicate ImageFails(c: Config, spec: Spec) {
    spec.image == "" && spec.version != "" && c.imageEnv != "" && c.imageEnvBase.None?
  }

  predicate PolicyFails(c: Config, spec: Spec) {
    spec.imagePullPolicy == "" && c.pullPolicyEnv !in ["", "Always", "IfNotPresent", "Never"]
  }

  /** When there is nothing to generate, and why: the first of three reasons. */
  lemma GenerationFails(c: Config, spec: Spec)
    ensures Desired(c, spec).Err? <==> Repeats(spec) || ImageFails(c, spec) || PolicyFails(c, spec)
    ensures Desired(c, spec).Err? ==>
            Desired(c, spec).error == if Repeats(spec) then DuplicateArgument
                                      else if ImageFails(c, spec) then ImageUnparsable
                                      else PullPolicyInvalid
  {
    ClashesAreRepeats(spec);
  }

  lemma ClashesAreRepeats(spec: Spec)
    ensures CommandArgs(spec).Err? <==> Repeats(spec)
    ensures CommandArgs(spec).Err? ==> CommandArgs(spec).error == DuplicateArgument
  {
    var own := OwnArgs(spec);
    assert "--namespaced" in own <==> spec.namespaceScoped;
    assert "--leader-elect" in own <==> spec.ha == Some(true);
    forall extra ensures Clashes(extra, own) <==>
        (extra == "--namespaced" && spec.namespaceScoped) || (extra == "--leader-elect" && spec.ha == Some(true)) {
      assert "true"[..2][0] == 't';
      assert "--namespaced"[..2] == "--" && "--leader-elect"[..2] == "--";
      assert forall arg | arg in own :: arg == "--namespaced" || arg == "--leader-elect" || arg == "true";
    }
  }

  // ----- What is stored -----

  lemma {:induction false} StoredFind(env: seq<EnvVar>, name: string)
    ensures SameVar(Find(StoredVars(env), name), Find(env, name))
  {
    if env != [] {
      assert StoredVars(env)[1..] == StoredVars(env[1..]);
      StoredFind(env[1..], name);
    }
  }

  lemma StoredEnvRuns(spec: Spec, proxy: seq<EnvVar>, env: seq<EnvVar>)
    requires RunsWithEnv(spec, proxy, env)
    ensures RunsWithEnv(spec, proxy, StoredVars(env))
  {
    forall name ensures SameVar(Find(StoredVars(env), name), Find(env, name)) {
      StoredFind(env, name);
    }
  }

  lemma StoredContainerRuns(c: Config, spec: Spec, k: Container)
    requires RunsContainer(c, spec, k)
    ensures RunsContainer(c, spec, StoredContainer(k))
  {
    StoredEnvRuns(spec, c.proxyEnv, k.env.Elems());
  }

  /** The server changes none of it. */
  lemma StoredRuns(c: Config, spec: Spec, d: DeploymentSpec)
    requires Runs(c, spec, d)
    ensures Runs(c, spec, StoredSpec(d))
  {
    StoredContainerRuns(c, spec, d.template.pod.containers[0]);
  }

  lemma OverwrittenRuns(c: Config, spec: Spec, live: Deployment, d: Deployment)
    requires Runs(c, spec, d.spec) && Carried(spec, d.meta)
    ensures Runs(c, spec, Overwritten(live, d).spec) && Carried(spec, Overwritten(live, d).meta)
  {
  }

  /** Overwriting leaves alone what the operator does not ask for. */
  lemma OverwrittenKeepsForeign(live: Deployment, d: Deployment)
    ensures var o := Overwritten(live, d);
            o.meta.owner == live.meta.owner && o.meta.rest == live.meta.rest && o.ready == live.ready &&
            o.spec.rest == live.spec.rest && o.spec.template.rest == live.spec.template.rest &&
            o.spec.template.pod.rest == live.spec.template.pod.rest &&
            (forall k | k in live.meta.labels.Content() && k !in d.meta.labels.Content() ::
               k in o.meta.labels.Content() && o.meta.labels.Content()[k] == live.meta.labels.Content()[k]) &&
            (forall k | k in live.meta.annotations.Content() && k !in d.meta.annotations.Content() ::
               k in o.meta.annotations.Content() &&
               o.meta.annotations.Content()[k] == live.meta.annotations.Content()[k])
  {
  }

  // ----- Which live Deployments are left alone -----

  lemma ArgsAreUnique(spec: Spec, a: seq<string>, b: seq<string>)
    requires RunsWithArgs(spec, a) && RunsWithArgs(spec, b)
    ensures a == b
  {
    var own := |a| - |spec.extraCommandArgs|;
    forall i | 0 <= i < |a| ensures a[i] == b[i] {
      if i >= own {
        assert a[own + (i - own)] == spec.extraCommandArgs[i - own] == b[own + (i - own)];
      }
    }
  }

  lemma ImageIsUnique(c: Config, spec: Spec, a: string, b: string)
    requires RunsImage(c, spec, a) && RunsImage(c, spec, b)
    ensures a == b
  {
  }

  /** What the normal form keeps of a container. */
  lemma ContainerLeftAlone(c: Config, spec: Spec, k: Container, want: Container)
    requires RolloutsContainer(c, spec) == Ok(want)
    ensures NormalContainer(k) == Ok(want) <==>
            RunsContainer(c, spec, k) && k.env.Elems() == EnvMerged(spec.env, c.proxyEnv, false) &&
            k.resources == spec.controllerResources.GetOr(DEFAULT_RESOURCES)
  {
    ContainerRuns(c, spec);
    if NormalContainer(k) == Ok(want) {
      NormalContainerRuns(c, spec, k, want);
    }
    if RunsContainer(c, spec, k) && k.env.Elems() == want.env.Elems() && k.resources == want.resources {
      ArgsAreUnique(spec, k.args.Elems(), want.args.Elems());
      ImageIsUnique(c, spec, k.image, want.image);
      RunningIsNormal(c, spec, k, want);
    }
  }

  lemma NormalContainerRuns(c: Config, spec: Spec, k: Container, want: Container)
    requires NormalContainer(k) == Ok(want) && RunsContainer(c, spec, want)
    ensures RunsContainer(c, spec, k) && k.env.Elems() == want.env.Elems() && k.resources == want.resources
  {
    var n := NormalContainer(k).value;
    assert n.ports[0].name == k.ports[0].name && n.ports[1].name == k.ports[1].name;
    assert n.mounts[0].name == k.mounts[0].name && n.mounts[1].name == k.mounts[1].name;
  }

  lemma RunningIsNormal(c: Config, spec: Spec, k: Container, want: Container)
    requires RunsContainer(c, spec, k) && RolloutsContainer(c, spec) == Ok(want)
    requires k.args.Elems() == want.args.Elems() && k.image == want.image &&
             RunsPullPolicy(c, spec, want.imagePullPolicy)
    requires k.env.Elems() == want.env.Elems() && k.resources == want.resources
    ensures NormalContainer(k) == Ok(want)
  {
    var n := NormalContainer(k).value;
    assert n.ports == want.ports;
    assert n.mounts == want.mounts;
  }

  /** The affinity, as far as the normal form goes. */
  lemma AffinityLeftAlone(spec: Spec, a: Option<Affinity>, selector: LabelSelector)
    requires selector == LabelSelector(Map(OwnPodLabels(spec)), UNSET)
    ensures NormalAffinity(a, selector) == Ok(DesiredAffinity(spec)) <==> IsSpread(spec, a)
  {
  }

  lemma RestrictedIsCarried(m: StringMap, expected: map<string, string>)
    ensures Restrict(m, expected.Keys) == Map(expected) <==>
            m.Map? && forall k | k in expected :: k in m.entries && m.entries[k] == expected[k]
  {
    if Restrict(m, expected.Keys) == Map(expected) {
      forall k | k in expected ensures k in m.entries && m.entries[k] == expected[k] {
        assert k in Restrict(m, expected.Keys).entries;
      }
    }
  }

  lemma MetaLeftAlone(spec: Spec, m: Meta)
    ensures NormalMeta(m, spec) == DefaultMeta(spec) <==> m.labels.Map? && m.annotations.Map? && Carried(spec, m)
  {
    RestrictedIsCarried(m.labels, DefaultLabels(spec));
    RestrictedIsCarried(m.annotations, spec.ExtraAnnotations());
    assert spec.ExtraLabels() == AskedLabels(spec) && spec.ExtraAnnotations() == AskedAnnotations(spec);
    forall k ensures k in DefaultLabels(spec) <==>
        k in AskedLabels(spec) || k in STANDARD_KEYS {
    }
  }

  /** Beside its contents: the forms in which reading back may have left them. */
  ghost predicate InSentForm(c: Config, spec: Spec, live: Deployment) {
    var pod := live.spec.template.pod;
    live.meta.labels.Map? && live.meta.annotations.Map? && pod.nodeSelector.Map? &&
    (pod.tolerations.Slice? <==> spec.nodePlacement.Some? && spec.nodePlacement.value.tolerations.Slice?) &&
    forall k | k in pod.containers ::
      k.env.Elems() == EnvMerged(spec.env, c.proxyEnv, false) &&
      k.resources == spec.controllerResources.GetOr(DEFAULT_RESOURCES)
  }

  lemma PlacementLeftAlone(spec: Spec, pod: PodSpec)
    ensures pod.nodeSelector == Map(DesiredNodeSelector(spec)) && pod.tolerations == DesiredTolerations(spec) <==>
            IsPlaced(spec, pod) && pod.nodeSelector.Map? &&
            (pod.tolerations.Slice? <==> spec.nodePlacement.Some? && spec.nodePlacement.value.tolerations.Slice?)
  {
  }

  /** The contents spelled out above, in the form in which they are sent. */
  ghost predicate IsAsDesired(c: Config, spec: Spec, live: Deployment) {
    Runs(c, spec, live.spec) && Carried(spec, live.meta) && InSentForm(c, spec, live)
  }

  /** A live Deployment is left alone exactly if it is so; whatever else it holds does not matter. */
  lemma LeftAloneExactly(c: Config, spec: Spec, live: Obj, d: Deployment)
    requires Desired(c, spec) == Ok(d)
    ensures !DeploymentDiffers(live, d, spec) <==> IsAsDesired(c, spec, AsDeployment(live))
  {
    DesiredIsNormal(c, spec);
    NormalExactly(c, spec, AsDeployment(live), d);
  }

  lemma NormalExactly(c: Config, spec: Spec, l: Deployment, d: Deployment)
    requires Desired(c, spec) == Ok(d)
    ensures Normalize(l, spec) == Ok(d) <==> IsAsDesired(c, spec, l)
  {
    var want := RolloutsContainer(c, spec).value;
    if Normalize(l, spec) == Ok(d) {
      NormalParts(c, spec, l, d, want);
      PartsRun(c, spec, l, want);
    }
    if IsAsDesired(c, spec, l) {
      RunningIsUntouched(c, spec, l, d, want);
    }
  }

  /** What it means, part by part, that the normal form is the desired one. */
  predicate HasParts(spec: Spec, l: Deployment, want: Container) {
    var pod := l.spec.template.pod;
    NormalMeta(l.meta, spec) == DefaultMeta(spec) &&
    l.spec.replicas.GetOr(1) == (if spec.ha == Some(true) then 2 else 1) &&
    l.spec.strategy.kind == "RollingUpdate" && l.spec.selector.Some? &&
    l.spec.selector.value.matchLabels.Content() == OwnPodLabels(spec) &&
    l.spec.template.labels.Content() == OwnPodLabels(spec) &&
    l.spec.template.annotations.Content() == spec.ExtraAnnotations() &&
    pod.nodeSelector == Map(DesiredNodeSelector(spec)) && pod.tolerations == DesiredTolerations(spec) &&
    pod.serviceAccount == "argo-rollouts" && pod.security.Some? && pod.security.value.runAsNonRoot == Some(true) &&
    pod.volumes == [Volume("plugin-bin", EMPTY_DIR), Volume("tmp", EMPTY_DIR)] &&
    |pod.containers| == 1 && NormalContainer(pod.containers[0]) == Ok(want) &&
    NormalAffinity(pod.affinity, LabelSelector(Map(OwnPodLabels(spec)), UNSET)) == Ok(DesiredAffinity(spec))
  }

  /** The parts of the desired Deployment. */
  predicate AreParts(spec: Spec, d: Deployment, want: Container) {
    var pod := d.spec.template.pod;
    d.meta == DefaultMeta(spec) && d.spec.replicas == Some(if spec.ha == Some(true) then 2 else 1) &&
    d.spec.strategy.kind == "RollingUpdate" && d.spec.selector == Some(LabelSelector(Map(OwnPodLabels(spec)), UNSET)) &&
    d.spec.template.labels == Map(OwnPodLabels(spec)) && d.spec.template.annotations == Map(spec.ExtraAnnotations()) &&
    pod.nodeSelector == Map(DesiredNodeSelector(spec)) && pod.tolerations == DesiredTolerations(spec) &&
    pod.serviceAccount == "argo-rollouts" && pod.security.Some? && pod.security.value.runAsNonRoot == Some(true) &&
    pod.volumes == [Volume("plugin-bin", EMPTY_DIR), Volume("tmp", EMPTY_DIR)] &&
    pod.containers == [want] && pod.affinity == DesiredAffinity(spec)
  }

  lemma DesiredHasParts(c: Config, spec: Spec, d: Deployment, want: Container)
    requires Desired(c, spec) == Ok(d) && RolloutsContainer(c, spec) == Ok(want)
    ensures AreParts(spec, d, want)
  {
  }

  lemma PodParts(spec: Spec, l: Deployment, n: Deployment, want: Container)
    requires Normalize(l, spec) == Ok(n) && n.spec.template.pod.containers == [want]
    ensures var pod := l.spec.template.pod;
            |pod.containers| == 1 && NormalContainer(pod.containers[0]) == Ok(want) &&
            l.spec.selector.Some? && n.spec.selector.Some? &&
            NormalAffinity(pod.affinity, n.spec.selector.value) == Ok(n.spec.template.pod.affinity) &&
            pod.volumes == n.spec.template.pod.volumes
  {
    var pod := l.spec.template.pod;
    assert [pod.volumes[0], pod.volumes[1]] == pod.volumes;
    assert n.spec.template.pod.containers[0] == want;
  }

  lemma NormalParts(c: Config, spec: Spec, l: Deployment, d: Deployment, want: Container)
    requires Desired(c, spec) == Ok(d) && RolloutsContainer(c, spec) == Ok(want) && Normalize(l, spec) == Ok(d)
    ensures HasParts(spec, l, want)
  {
    DesiredHasParts(c, spec, d, want);
    PodParts(spec, l, d, want);
    PlainParts(spec, l, d, want);
  }

  lemma PlainParts(spec: Spec, l: Deployment, n: Deployment, want: Container)
    requires Normalize(l, spec) == Ok(n) && AreParts(spec, n, want)
    requires var pod := l.spec.template.pod;
             |pod.containers| == 1 && NormalContainer(pod.containers[0]) == Ok(want) && l.spec.selector.Some? &&
             NormalAffinity(pod.affinity, n.spec.selector.value) == Ok(DesiredAffinity(spec)) &&
             pod.volumes == n.spec.template.pod.volumes
    ensures HasParts(spec, l, want)
  {
    var selector := LabelSelector(NormalizeMap(l.spec.selector.value.matchLabels), UNSET);
    assert n.spec.selector == Some(selector);
  }

  lemma PartsRun(c: Config, spec: Spec, l: Deployment, want: Container)
    requires RolloutsContainer(c, spec) == Ok(want) && HasParts(spec, l, want)
    ensures IsAsDesired(c, spec, l)
  {
    var pod := l.spec.template.pod;
    MetaLeftAlone(spec, l.meta);
    PlacementLeftAlone(spec, pod);
    ContainerLeftAlone(c, spec, pod.containers[0], want);
    AffinityLeftAlone(spec, pod.affinity, LabelSelector(Map(OwnPodLabels(spec)), UNSET));
  }

  lemma RunningHasParts(c: Config, spec: Spec, l: Deployment, want: Container)
    requires RolloutsContainer(c, spec) == Ok(want) && IsAsDesired(c, spec, l)
    ensures HasParts(spec, l, want)
  {
    var pod := l.spec.template.pod;
    MetaLeftAlone(spec, l.meta);
    PlacementLeftAlone(spec, pod);
    assert pod.containers[0] in pod.containers;
    ContainerLeftAlone(c, spec, pod.containers[0], want);
    AffinityLeftAlone(spec, pod.affinity, LabelSelector(Map(OwnPodLabels(spec)), UNSET));
  }

  lemma RunningIsUntouched(c: Config, spec: Spec, l: Deployment, d: Deployment, want: Container)
    requires Desired(c, spec) == Ok(d) && RolloutsContainer(c, spec) == Ok(want) && IsAsDesired(c, spec, l)
    ensures Normalize(l, spec) == Ok(d)
  {
    RunningHasParts(c, spec, l, want);
    var selector := LabelSelector(NormalizeMap(l.spec.selector.value.matchLabels), UNSET);
    assert selector == LabelSelector(Map(OwnPodLabels(spec)), UNSET);
    assert Normalize(l, spec).value.spec.template == d.spec.template;
  }

  // ----- Which live Deployments are recreated -----

  predicate HasContainerForm(k: Container) {
    k.livenessProbe.Some? && k.livenessProbe.value.httpGet.Some? && |k.ports| == 2 &&
    k.securityContext.Some? && k.securityContext.value.capabilities.Some? && |k.mounts| == 2
  }

  predicate HasAffinityForm(a: Option<Affinity>) {
    a.Some? && a.value.podAntiAffinity.Some? ==>
      |a.value.podAntiAffinity.value.preferred| == 1 && |a.value.podAntiAffinity.value.required| == 1
  }

  /** It can be compared at all. */
  predicate IsComparable(d: DeploymentSpec) {
    var pod := d.template.pod;
    d.selector.Some? && pod.security.Some? && |pod.volumes| == 2 && |pod.containers| == 1 &&
    HasContainerForm(pod.containers[0]) && HasAffinityForm(pod.affinity)
  }

  lemma ComparableExactly(d: Deployment, spec: Spec)
    ensures Normalize(d, spec).Ok? <==> IsComparable(d.spec)
  {
  }

  /** It selects the pods that the operator asks for. */
  predicate SelectsOwnPods(spec: Spec, d: DeploymentSpec) {
    IsComparable(d) && d.selector.value.matchLabels.Content() == OwnPodLabels(spec)
  }

  lemma SelectorsDifferExactly(c: Config, spec: Spec, live: Obj, d: Deployment)
    requires Desired(c, spec) == Ok(d)
    ensures SelectorsDiffer(live, d, spec) <==> !SelectsOwnPods(spec, AsDeployment(live).spec)
  {
    DesiredIsNormal(c, spec);
    ComparableExactly(AsDeployment(live), spec);
    assert d.spec.selector == Some(LabelSelector(Map(OwnPodLabels(spec)), UNSET));
  }

  /** Owner, readiness, foreign fields, labels and annotations are those of the live object. */
  predicate IsSameObject(live: Obj, after: Obj, spec: Spec) {
    after.meta.owner == live.meta.owner && after.meta.rest == live.meta.rest &&
    AsDeployment(after).ready == AsDeployment(live).ready &&
    (forall k | k in live.meta.labels.Content() ::
       k in after.meta.labels.Content() &&
       (k !in AskedLabels(spec) &&
        k !in STANDARD_KEYS ==>
        after.meta.labels.Content()[k] == live.meta.labels.Content()[k])) &&
    (forall k | k in live.meta.annotations.Content() ::
       k in after.meta.annotations.Content() &&
       (k !in AskedAnnotations(spec) ==> after.meta.annotations.Content()[k] == live.meta.annotations.Content()[k]))
  }

  /** A new object, owned by the RolloutManager, with nothing of the old one. */
  predicate IsNewObject(r: Request, spec: Spec, after: Obj) {
    after.meta.owner == Some(Owner(true, r.name)) && after.meta.rest == 0 && AsDeployment(after).ready == 0 &&
    after.meta.labels.Content().Keys ==
      AskedLabels(spec).Keys + STANDARD_KEYS &&
    after.meta.annotations.Content() == AskedAnnotations(spec)
  }

  lemma OverwrittenIsSame(c: Config, spec: Spec, live: Obj, d: Deployment)
    requires Desired(c, spec) == Ok(d) && live.body.DeploymentBody?
    ensures IsSameObject(live, Stored(AsObj(Overwritten(AsDeployment(live), d))), spec)
  {
    assert d.meta == DefaultMeta(spec);
    assert spec.ExtraLabels() == AskedLabels(spec) && spec.ExtraAnnotations() == AskedAnnotations(spec);
  }

  lemma CreatedIsNew(c: Config, r: Request, spec: Spec, d: Deployment)
    requires Desired(c, spec) == Ok(d)
    ensures IsNewObject(r, spec, Stored(AsObj(d.(meta := d.meta.(owner := Some(Owner(true, r.name)))))))
  {
    assert d.meta == DefaultMeta(spec);
    assert spec.ExtraLabels() == AskedLabels(spec) && spec.ExtraAnnotations() == AskedAnnotations(spec);
  }

  /** The live Deployment stays the same object if it selects the operator's pods, and is replaced by a
      new one if it does not, or cannot be compared. */
  predicate IsRecreatedIfNeeded(r: Request, spec: Spec, live: Obj, after: Option<Obj>) {
    after.Some? &&
    if SelectsOwnPods(spec, AsDeployment(live).spec) then IsSameObject(live, after.value, spec)
    else IsNewObject(r, spec, after.value)
  }

  lemma RecreatedExactly(c: Config, w: World, r: Request, spec: Spec, live: Obj, v: World)
    requires w.Quiet() && w.Lookup(KeyOf(r, DeploymentStage)) == Some(live)
    requires RunDeployment(c, w, r, spec) == (v, Done)
    ensures IsRecreatedIfNeeded(r, spec, live, v.Lookup(KeyOf(r, DeploymentStage)))
  {
    DoneIsDriven(c, w, r, spec);
    RecreatedByDrive(c, w, r, spec, live, Desired(c, spec).value, KeyOf(r, DeploymentStage), v);
  }

  lemma RecreatedByDrive(c: Config, w: World, r: Request, spec: Spec, live: Obj, d: Deployment, k: Key, v: World)
    requires w.Quiet() && k == KeyOf(r, DeploymentStage) && w.Lookup(k) == Some(live) && Desired(c, spec) == Ok(d)
    requires DriveDeployment(w, r, spec, d) == (v, Done)
    ensures IsRecreatedIfNeeded(r, spec, live, v.Lookup(k))
  {
    DriveRecreates(c, w, r, spec, live, d);
  }

  lemma DoneIsDriven(c: Config, w: World, r: Request, spec: Spec)
    requires RunDeployment(c, w, r, spec).1 == Done
    ensures Desired(c, spec).Ok? && RunDeployment(c, w, r, spec) == DriveDeployment(w, r, spec, Desired(c, spec).value)
  {
  }

  lemma DriveRecreates(c: Config, w: World, r: Request, spec: Spec, live: Obj, d: Deployment)
    requires w.Quiet() && w.Lookup(KeyOf(r, DeploymentStage)) == Some(live) && Desired(c, spec) == Ok(d)
    requires DriveDeployment(w, r, spec, d).1 == Done
    ensures IsRecreatedIfNeeded(r, spec, live, DriveDeployment(w, r, spec, d).0.Lookup(KeyOf(r, DeploymentStage)))
  {
    SelectorsDifferExactly(c, spec, live, d);
    if DeploymentDiffers(live, d, spec) {
      var have, want := NormalOrEmpty(AsDeployment(live), spec), NormalOrEmpty(d, spec);
      assert DriveDeployment(w, r, spec, d) == FixDeployment(w, r, live, d, have, want);
      FixRecreates(c, w, r, spec, live, d, have, want);
    } else {
      UntouchedIsSame(c, spec, live, d);
    }
  }

  lemma UntouchedIsSame(c: Config, spec: Spec, live: Obj, d: Deployment)
    requires Desired(c, spec) == Ok(d) && !DeploymentDiffers(live, d, spec)
    ensures !SelectorsDiffer(live, d, spec) && IsSameObject(live, live, spec)
  {
    DesiredIsNormal(c, spec);
  }

  lemma FixRecreates(c: Config, w: World, r: Request, spec: Spec, live: Obj, d: Deployment, have: Deployment,
                     want: Deployment)
    requires w.Quiet() && w.Lookup(KeyOf(r, DeploymentStage)) == Some(live) && Desired(c, spec) == Ok(d)
    requires FixDeployment(w, r, live, d, have, want).1 == Done
    requires have == NormalOrEmpty(AsDeployment(live), spec) && want == NormalOrEmpty(d, spec)
    ensures var after := FixDeployment(w, r, live, d, have, want).0.Lookup(KeyOf(r, DeploymentStage));
            after.Some? &&
            if have.spec.selector == want.spec.selector then IsSameObject(live, after.value, spec)
            else IsNewObject(r, spec, after.value)
  {
    if have.spec.selector == want.spec.selector {
      SelectorsDifferExactly(c, spec, live, d);
      OverwrittenIsSameIf(c, spec, live, d);
      FixByUpdate(w, r, live, d, have, want);
    } else {
      FixByCreation(w, r, live, d, have, want);
      CreatedIsNew(c, r, spec, d);
    }
  }

  lemma FixByCreation(w: World, r: Request, live: Obj, d: Deployment, have: Deployment, want: Deployment)
    requires w.Quiet() && w.Lookup(KeyOf(r, DeploymentStage)) == Some(live) && have.spec.selector != want.spec.selector
    ensures FixDeployment(w, r, live, d, have, want).0.Lookup(KeyOf(r, DeploymentStage)) ==
            Some(Stored(AsObj(d.(meta := d.meta.(owner := Some(Owner(true, r.name)))))))
  {
  }

  lemma OverwrittenIsSameIf(c: Config, spec: Spec, live: Obj, d: Deployment)
    requires Desired(c, spec) == Ok(d)
    ensures live.body.DeploymentBody? ==> IsSameObject(live, Stored(AsObj(Overwritten(AsDeployment(live), d))), spec)
  {
    if live.body.DeploymentBody? {
      OverwrittenIsSame(c, spec, live, d);
    }
  }

  // ----- After a finished run -----

  /** The stored Deployment, after a finished run of the stage. */
  ghost predicate RunsIn(c: Config, r: Request, spec: Spec, objs: map<Key, Obj>) {
    var k := Key(DeploymentKind, r.ns, "argo-rollouts");
    k in objs && objs[k].body.DeploymentBody? && Runs(c, spec, objs[k].body.spec) && Carried(spec, objs[k].meta)
  }

  lemma CarriedIsStored(spec: Spec, m: Meta)
    requires Carried(spec, m)
    ensures Carried(spec, StoredMeta(m))
  {
  }

  lemma StoredStands(c: Config, w: World, r: Request, spec: Spec, e: Deployment)
    requires Runs(c, spec, e.spec) && Carried(spec, e.meta)
    requires w.Lookup(KeyOf(r, DeploymentStage)) == Some(Stored(AsObj(e)))
    ensures RunsIn(c, r, spec, w.objs)
  {
    StoredRuns(c, spec, e.spec);
    CarriedIsStored(spec, e.meta);
  }

  function Owned(d: Deployment, r: Request): Deployment {
    d.(meta := d.meta.(owner := Some(Owner(true, r.name))))
  }

  lemma CreatedIsStored(w: World, r: Request, d: Deployment)
    requires CreateDeployment(w, r, d).1 == Done
    ensures CreateDeployment(w, r, d).0.Lookup(KeyOf(r, DeploymentStage)) == Some(Stored(AsObj(Owned(d, r))))
  {
  }

  lemma OwnedRuns(c: Config, r: Request, spec: Spec, d: Deployment)
    requires Desired(c, spec) == Ok(d)
    ensures Runs(c, spec, Owned(d, r).spec) && Carried(spec, Owned(d, r).meta)
  {
    DesiredRuns(c, spec);
  }

  lemma CreationRuns(c: Config, w: World, r: Request, spec: Spec, d: Deployment)
    requires Desired(c, spec) == Ok(d) && CreateDeployment(w, r, d).1 == Done
    ensures RunsIn(c, r, spec, CreateDeployment(w, r, d).0.objs)
  {
    CreatedIsStored(w, r, d);
    OwnedRuns(c, r, spec, d);
    StoredStands(c, CreateDeployment(w, r, d).0, r, spec, Owned(d, r));
  }

  lemma UpdatedIsStored(w: World, k: Key, fetched: Obj, obj: Obj)
    requires Update(w, k, fetched, obj).1.None?
    ensures Update(w, k, fetched, obj).0.Lookup(k) == Some(Stored(obj))
  {
  }

  lemma UpdateRuns(c: Config, w: World, r: Request, spec: Spec, live: Obj, d: Deployment)
    requires Desired(c, spec) == Ok(d)
    requires Update(w, KeyOf(r, DeploymentStage), live, AsObj(Overwritten(AsDeployment(live), d))).1.None?
    ensures RunsIn(c, r, spec,
                   Update(w, KeyOf(r, DeploymentStage), live, AsObj(Overwritten(AsDeployment(live), d))).0.objs)
  {
    var o := Overwritten(AsDeployment(live), d);
    DesiredRuns(c, spec);
    OverwrittenRuns(c, spec, AsDeployment(live), d);
    UpdatedIsStored(w, KeyOf(r, DeploymentStage), live, AsObj(o));
    StoredStands(c, Update(w, KeyOf(r, DeploymentStage), live, AsObj(o)).0, r, spec, o);
  }

  lemma FixRuns(c: Config, w: World, r: Request, spec: Spec, live: Obj, d: Deployment, have: Deployment,
                want: Deployment)
    requires Desired(c, spec) == Ok(d) && FixDeployment(w, r, live, d, have, want).1 == Done
    ensures RunsIn(c, r, spec, FixDeployment(w, r, live, d, have, want).0.objs)
  {
    if have.spec.selector != want.spec.selector {
      CreationRuns(c, Delete(w, KeyOf(r, DeploymentStage)).0, r, spec, d);
    } else {
      UpdateRuns(c, w, r, spec, live, d);
    }
  }

  lemma DriveRuns(c: Config, w: World, r: Request, spec: Spec, d: Deployment)
    requires Desired(c, spec) == Ok(d) && DriveDeployment(w, r, spec, d).1 == Done
    ensures RunsIn(c, r, spec, DriveDeployment(w, r, spec, d).0.objs)
  {
    var (w1, live) := Get(w, KeyOf(r, DeploymentStage));
    if live == Err(NotFound) {
      CreationRuns(c, w1, r, spec, d);
    } else if DeploymentDiffers(live.value, d, spec) {
      FixRuns(c, w1, r, spec, live.value, d, NormalOrEmpty(AsDeployment(live.value), spec), NormalOrEmpty(d, spec));
    } else {
      UntouchedRuns(c, w1, r, spec, live.value, d);
    }
  }

  lemma UntouchedRuns(c: Config, w: World, r: Request, spec: Spec, live: Obj, d: Deployment)
    requires Desired(c, spec) == Ok(d) && w.Lookup(KeyOf(r, DeploymentStage)) == Some(live)
    requires !DeploymentDiffers(live, d, spec)
    ensures RunsIn(c, r, spec, w.objs)
  {
    LeftAloneExactly(c, spec, live, d);
    RunningIsDeployment(c, spec, live);
    RunningStands(c, w.objs, r, spec, KeyOf(r, DeploymentStage), live.body.spec);
  }

  lemma RunningIsDeployment(c: Config, spec: Spec, live: Obj)
    requires Runs(c, spec, AsDeployment(live).spec)
    ensures live.body.DeploymentBody? && AsDeployment(live).spec == live.body.spec
  {
    var d := AsDeployment(live).spec;
    assert d.selector.Some?;
  }

  lemma RunningStands(c: Config, objs: map<Key, Obj>, r: Request, spec: Spec, k: Key, d: DeploymentSpec)
    requires k == KeyOf(r, DeploymentStage) && k in objs && objs[k].body.DeploymentBody? && objs[k].body.spec == d
    requires Runs(c, spec, d) && Carried(spec, objs[k].meta)
    ensures RunsIn(c, r, spec, objs)
  {
  }

  /** Whatever was there, whatever outsiders do meanwhile and whichever calls fail: when the stage
      finishes, the Deployment that is stored runs what the CR asks for. */
  lemma FinishedStageRuns(c: Config, w: World, r: Request, spec: Spec)
    ensures RunDeployment(c, w, r, spec).1 == Done ==> RunsIn(c, r, spec, RunDeployment(c, w, r, spec).0.objs)
  {
    if Desired(c, spec).Ok? && RunDeployment(c, w, r, spec).1 == Done {
      assert RunDeployment(c, w, r, spec) == DriveDeployment(w, r, spec, Desired(c, spec).value);
      DriveRuns(c, w, r, spec, Desired(c, spec).value);
    }
  }
}
