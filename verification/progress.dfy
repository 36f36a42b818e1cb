/** When nobody interferes: what keeps a reconcile from succeeding, what a settled
    RolloutManager is, and that a successful reconcile settles it. */
module Progress {
  import opened GoTypes
  import opened RolloutManagers
  import opened Statuses
  import opened Cluster
  import opened Operator
  import opened Settling
  import opened Convergence
  import opened Fixpoint
  import Deployments

  // ----- Conditions for success -----

  /** The CR can be carried out. */
  predicate CrWorks(c: Config, spec: Spec) {
    PluginProblem(c, spec).None? && Deployments.Desired(c, spec).Ok?
  }

  /** The live ConfigMap, if any, has data, and its plugin lists parse. */
  predicate DataWorks(r: Request, objs: map<Key, Obj>) {
    var live := LookIn(objs, KeyOf(r, ConfigMapStage));
    live.Some? ==> DataOf(live.value).Data? && DataProblem(DataOf(live.value)).None?
  }

  /** The live Deployment, if any, is as desired, or to be recreated, or may be overwritten. */
  predicate UpdateWorks(c: Config, r: Request, spec: Spec, objs: map<Key, Obj>) {
    var live := LookIn(objs, KeyOf(r, DeploymentStage));
    Deployments.Desired(c, spec).Ok? && live.Some? ==>
      !UpdateRefused(live.value, Deployments.Desired(c, spec).value, spec)
  }

  /** What is already in the cluster does not stand in the way. */
  predicate LiveWorks(c: Config, r: Request, spec: Spec, objs: map<Key, Obj>) {
    DataWorks(r, objs) && UpdateWorks(c, r, spec, objs)
  }

  predicate HasSelector(live: Option<Obj>) {
    live.Some? ==> AsDeployment(live.value).spec.selector.Some?
  }

  /** No restart of the pods is due that would meet a Deployment without a selector. */
  predicate RestartWorks(c: Config, r: Request, spec: Spec, objs: map<Key, Obj>) {
    LookIn(objs, KeyOf(r, ConfigMapStage)).None? || ConfigSettled(c, r, spec, objs) ||
    HasSelector(LookIn(objs, KeyOf(r, DeploymentStage)))
  }

  /** A run that cannot fail succeeds, unless it meets a Deployment without a selector while
      it restarts the pods: then it panics, but not the next time. */
  ghost predicate Advances(c: Config, r: Request, spec: Spec, w: World, v: World, o: Outcome) {
    !o.Failed? && LiveWorks(c, r, spec, v.objs) &&
    (RestartWorks(c, r, spec, w.objs) || o == Panicked ==> RestartWorks(c, r, spec, v.objs)) &&
    (RestartWorks(c, r, spec, w.objs) ==> o == Done)
  }

  // ----- Each stage -----

  lemma RestartSucceeds(w: World, r: Request)
    requires w.Quiet() && HasSelector(w.Lookup(KeyOf(r, DeploymentStage)))
    ensures RestartPods(w, r).1 == Done
  {
    var k := KeyOf(r, DeploymentStage);
    if k in w.objs {
      DeletePodsLands(w, Selected(w.pods, r.ns, AsDeployment(w.objs[k]).spec.selector.value.matchLabels.Content()));
    }
  }

  lemma RewriteAdvances(c: Config, r: Request, spec: Spec, w: World, fixed: Obj)
    requires w.Quiet() && KeyOf(r, ConfigMapStage) in w.objs && PluginProblem(c, spec).None?
    requires !PluginsDiffer(DataOf(Stored(fixed)), c, spec)
    ensures var (v, o) := RewriteConfig(w, r, w.objs[KeyOf(r, ConfigMapStage)], fixed);
            !o.Failed? && ConfigSettled(c, r, spec, v.objs) &&
            (HasSelector(LookIn(w.objs, KeyOf(r, DeploymentStage))) ==> o == Done)
  {
    RewriteConfigLands(w, r, fixed);
    if HasSelector(LookIn(w.objs, KeyOf(r, DeploymentStage))) {
      RestartSucceeds(SetObject(w, KeyOf(r, ConfigMapStage), Some(Stored(fixed)), true), r);
    }
  }

  lemma RepairConfigAdvances(c: Config, r: Request, spec: Spec, w: World, live: Obj)
    requires w.Quiet() && w.Lookup(KeyOf(r, ConfigMapStage)) == Some(live) && PluginProblem(c, spec).None? &&
             DataWorks(r, w.objs)
    ensures var (v, o) := RepairConfig(c, w, r, spec, live);
            !o.Failed? && ConfigSettled(c, r, spec, v.objs) && (RestartWorks(c, r, spec, w.objs) ==> o == Done)
  {
    var fixed := RepairedConfig(live, c, spec);
    PluginDataSettles(c, spec, Entries(DataOf(live)));
    StoredConfig(c, spec, fixed);
    RewriteAdvances(c, r, spec, w, fixed);
  }

  lemma ConfigMapAdvances(c: Config, r: Request, spec: Spec, w: World)
    requires w.Quiet() && CrWorks(c, spec) && DataWorks(r, w.objs)
    ensures var (v, o) := RunConfigMap(c, w, r, spec);
            !o.Failed? && ConfigSettled(c, r, spec, v.objs) && (RestartWorks(c, r, spec, w.objs) ==> o == Done)
  {
    if KeyOf(r, ConfigMapStage) in w.objs {
      RepairConfigAdvances(c, r, spec, w, w.objs[KeyOf(r, ConfigMapStage)]);
    } else {
      ConfigMapLands(c, r, spec, w);
    }
  }

  /** The ConfigMap stage leaves the Deployment alone. */
  lemma ConfigMapKeepsUpdate(c: Config, r: Request, spec: Spec, w: World)
    requires w.Quiet() && UpdateWorks(c, r, spec, w.objs)
    ensures UpdateWorks(c, r, spec, RunConfigMap(c, w, r, spec).0.objs)
  {
    ConfigMapLands(c, r, spec, w);
    assert KeyOf(r, DeploymentStage) !in Footprint(r, ConfigMapStage);
    UpdateWorksIsLocal(c, r, spec, w, RunConfigMap(c, w, r, spec).0);
  }

  lemma SettledDataWorks(c: Config, r: Request, spec: Spec, objs: map<Key, Obj>)
    requires ConfigSettled(c, r, spec, objs)
    ensures DataWorks(r, objs) && RestartWorks(c, r, spec, objs)
  {
  }

  lemma SettledHasSelector(c: Config, r: Request, spec: Spec, objs: map<Key, Obj>)
    requires WorkloadSettled(c, r, spec, objs)
    ensures RestartWorks(c, r, spec, objs)
  {
    Deployments.DesiredIsNormal(c, spec);
    SelectorIfSettled(objs[KeyOf(r, DeploymentStage)], Deployments.Desired(c, spec).value, spec);
  }

  lemma SettledUpdateWorks(c: Config, r: Request, spec: Spec, objs: map<Key, Obj>)
    requires WorkloadSettled(c, r, spec, objs)
    ensures UpdateWorks(c, r, spec, objs)
  {
    NotRefusedIfSettled(c, objs[KeyOf(r, DeploymentStage)], Deployments.Desired(c, spec).value, spec);
  }

  lemma NotRefusedIfSettled(c: Config, live: Obj, d: Deployments.Deployment, spec: Spec)
    requires DeploymentSettled(live, d, spec) && Deployments.Desired(c, spec) == Ok(d)
    ensures !UpdateRefused(live, d, spec)
  {
    if DeploymentDiffers(live, d, spec) {
      WrittenHasNoExpressions(live, d);
    }
  }

  lemma WrittenHasNoExpressions(live: Obj, d: Deployments.Deployment)
    requires Stored(AsObj(Deployments.Overwritten(AsDeployment(live), d))) == live
    requires d.spec.selector.Some? && d.spec.selector.value.matchExpressions == Deployments.UNSET
    ensures !HasExpressions(live)
  {
    assert AsDeployment(live).spec.selector == Some(Deployments.StoredSelector(d.spec.selector.value));
  }

  lemma SelectorIfSettled(live: Obj, d: Deployments.Deployment, spec: Spec)
    requires DeploymentSettled(live, d, spec) && Deployments.Normalize(d, spec) == Ok(d) && d.spec.selector.Some?
    ensures AsDeployment(live).spec.selector.Some?
  {
    assert NormalOrEmpty(d, spec) == d;
  }

  lemma UpdateWorksIsLocal(c: Config, r: Request, spec: Spec, w: World, v: World)
    requires w.Lookup(KeyOf(r, DeploymentStage)) == v.Lookup(KeyOf(r, DeploymentStage))
    ensures UpdateWorks(c, r, spec, w.objs) <==> UpdateWorks(c, r, spec, v.objs)
  {
    assert LookIn(w.objs, KeyOf(r, DeploymentStage)) == LookIn(v.objs, KeyOf(r, DeploymentStage));
  }

  lemma WorksIsLocal(c: Config, r: Request, spec: Spec, w: World, v: World)
    requires w.Lookup(KeyOf(r, ConfigMapStage)) == v.Lookup(KeyOf(r, ConfigMapStage))
    ensures DataWorks(r, w.objs) <==> DataWorks(r, v.objs)
    ensures w.Lookup(KeyOf(r, DeploymentStage)) == v.Lookup(KeyOf(r, DeploymentStage)) ==>
            (RestartWorks(c, r, spec, w.objs) <==> RestartWorks(c, r, spec, v.objs)) &&
            (LiveWorks(c, r, spec, w.objs) <==> LiveWorks(c, r, spec, v.objs))
  {
    assert LookIn(w.objs, KeyOf(r, ConfigMapStage)) == LookIn(v.objs, KeyOf(r, ConfigMapStage));
    assert LookIn(w.objs, KeyOf(r, DeploymentStage)) == w.Lookup(KeyOf(r, DeploymentStage));
    assert LookIn(v.objs, KeyOf(r, DeploymentStage)) == v.Lookup(KeyOf(r, DeploymentStage));
  }

  /** The stages other than ConfigMap and Deployment always succeed. */
  lemma OtherStageSucceeds(c: Config, r: Request, spec: Spec, s: Stage, w: World)
    requires w.Quiet() && !s.ConfigMapStage? && !s.DeploymentStage?
    ensures RunStage(c, w, r, spec, s).1 == Done
  {
    match s
    case SecretStage => SecretLands(c, r, spec, w);
    case NetworkPolicyStage => PolicyLands(c, r, spec, w);
    case _ => PlainLands(c, r, spec, s, w);
  }

  lemma OtherStageAdvances(c: Config, r: Request, spec: Spec, s: Stage, w: World, v: World)
    requires Within(w, v, Footprint(r, s)) && !s.ConfigMapStage? && !s.DeploymentStage? && LiveWorks(c, r, spec, w.objs)
    ensures Advances(c, r, spec, w, v, Done)
  {
    StagesShareNothing(r, s, ConfigMapStage);
    StagesShareNothing(r, s, DeploymentStage);
    assert KeyOf(r, ConfigMapStage) in Footprint(r, ConfigMapStage);
    assert KeyOf(r, DeploymentStage) in Footprint(r, DeploymentStage);
    WorksIsLocal(c, r, spec, w, v);
  }

  lemma DeploymentAdvances(c: Config, r: Request, spec: Spec, w: World, v: World)
    requires Within(w, v, {KeyOf(r, DeploymentStage)}) && RestartWorks(c, r, spec, v.objs) && DataWorks(r, w.objs)
    requires UpdateWorks(c, r, spec, v.objs)
    ensures Advances(c, r, spec, w, v, Done)
  {
    assert KeyOf(r, ConfigMapStage) != KeyOf(r, DeploymentStage);
    WorksIsLocal(c, r, spec, w, v);
  }

  lemma StageAdvances(c: Config, r: Request, spec: Spec, s: Stage, w: World)
    requires w.Quiet() && CrWorks(c, spec) && LiveWorks(c, r, spec, w.objs)
    ensures Advances(c, r, spec, w, RunStage(c, w, r, spec, s).0, RunStage(c, w, r, spec, s).1)
  {
    match s
    case ConfigMapStage =>
      ConfigMapAdvances(c, r, spec, w);
      SettledDataWorks(c, r, spec, RunConfigMap(c, w, r, spec).0.objs);
      ConfigMapKeepsUpdate(c, r, spec, w);
    case DeploymentStage =>
      DeploymentConverges(c, w, r, spec, Deployments.Desired(c, spec).value);
      SettledUpdateWorks(c, r, spec, RunDeployment(c, w, r, spec).0.objs);
      SettledHasSelector(c, r, spec, RunDeployment(c, w, r, spec).0.objs);
      DeploymentAdvances(c, r, spec, w, RunDeployment(c, w, r, spec).0);
    case _ =>
      StageLands(c, r, spec, s, w);
      OtherStageSucceeds(c, r, spec, s, w);
      OtherStageAdvances(c, r, spec, s, w, RunStage(c, w, r, spec, s).0);
  }

  lemma {:induction false} StagesAdvance(c: Config, r: Request, spec: Spec, stages: seq<Stage>, w: World)
    requires w.Quiet() && CrWorks(c, spec) && LiveWorks(c, r, spec, w.objs)
    ensures Advances(c, r, spec, w, RunStages(c, w, r, spec, stages).0, RunStages(c, w, r, spec, stages).1)
    decreases |stages|
  {
    if stages != [] {
      StageAdvances(c, r, spec, stages[0], w);
      StageLands(c, r, spec, stages[0], w);
      var (w1, o) := RunStage(c, w, r, spec, stages[0]);
      if o == Done {
        StagesAdvance(c, r, spec, stages[1..], w1);
      }
    }
  }

  // ----- Settled RolloutManagers -----

  function CurrentPhase(objs: map<Key, Obj>, r: Request): Phase {
    PhaseOf(if KeyOf(r, DeploymentStage) in objs then Some(AsDeployment(objs[KeyOf(r, DeploymentStage)])) else None)
  }

  predicate AdmittedSettled(c: Config, r: Request, rm: RolloutManager, objs: map<Key, Obj>) {
    AllSettled(c, r, rm.spec, Pipeline(rm.spec), objs) &&
    StatusSettled(rm.status, PhaseResult(rm.status, CurrentPhase(objs, r)))
  }

  /** Reconciling this RolloutManager would change nothing. */
  predicate ManagerSettled(c: Config, w: World, r: Request)
    requires r in w.rms
  {
    w.NamespaceIsLive(r.ns) ==>
      match Verdict(c, w.rms, r)
      case Some(condition) => StatusSettled(w.rms[r].status, Rejection(condition))
      case None => AdmittedSettled(c, r, w.rms[r], w.objs)
  }

  lemma {:induction false} SettledStagesAreIdle(c: Config, r: Request, spec: Spec, stages: seq<Stage>, w: World)
    requires w.Quiet() && AllSettled(c, r, spec, stages, w.objs)
    ensures RunStages(c, w, r, spec, stages) == (w, Done)
    decreases |stages|
  {
    if stages != [] {
      StageRepeats(c, r, spec, stages[0], w);
      SettledStagesAreIdle(c, r, spec, stages[1..], w);
    }
  }

  lemma SettledAdmittedIsIdle(c: Config, w: World, r: Request, rm: RolloutManager)
    requires w.Quiet() && AdmittedSettled(c, r, rm, w.objs)
    ensures RunAdmitted(c, w, r, rm) == (w, PhaseResult(rm.status, CurrentPhase(w.objs, r)), Done)
  {
    SettledStagesAreIdle(c, r, rm.spec, Pipeline(rm.spec), w);
  }

  /** What a RolloutManager's reconcile comes down to, by verdict. */
  lemma ManagerByVerdict(c: Config, w: World, r: Request)
    requires w.Quiet() && r in w.rms
    ensures ReconcileManager(c, w, r, w.rms[r]) ==
            match Verdict(c, w.rms, r)
            case Some(condition) => (w, Rejection(condition), Done)
            case None => RunAdmitted(c, w, r, w.rms[r])
  {
  }

  lemma SettledIsIdle(c: Config, w: World, r: Request)
    requires w.Quiet() && r in w.rms && r.ns in w.namespaces && ManagerSettled(c, w, r)
    ensures Reconcile(c, w, r) == (w, Done)
  {
    if !w.namespaces[r.ns] {
      ManagerByVerdict(c, w, r);
      if Verdict(c, w.rms, r).None? {
        SettledAdmittedIsIdle(c, w, r, w.rms[r]);
      }
    }
  }

  // ----- A successful reconcile settles -----

  /** Only the status of one RolloutManager, the objects, the pods and the queue may differ. */
  ghost predicate OnlyStatus(w: World, v: World, r: Request) {
    v.Quiet() && v.namespaces == w.namespaces && r in w.rms && r in v.rms &&
    v.rms[r].spec == w.rms[r].spec && v.rms == w.rms[r := v.rms[r]]
  }

  lemma VerdictIsStable(c: Config, w: World, v: World, r: Request, q: Request)
    requires OnlyStatus(w, v, r) && q in w.rms
    ensures Verdict(c, v.rms, q) == Verdict(c, w.rms, q)
  {
    if OtherClusterScoped(w.rms, q) {
      var p :| p in w.rms && p != q && !w.rms[p].spec.namespaceScoped;
      assert p in v.rms && !v.rms[p].spec.namespaceScoped;
    }
    if OtherClusterScoped(v.rms, q) {
      var p :| p in v.rms && p != q && !v.rms[p].spec.namespaceScoped;
      assert p in w.rms && !w.rms[p].spec.namespaceScoped;
    }
  }

  lemma RejectionSettles(c: Config, w: World, r: Request)
    requires w.Quiet() && r in w.rms && w.NamespaceIsLive(r.ns) && Verdict(c, w.rms, r).Some?
    ensures var (v, o) := Reconcile(c, w, r);
            o == Done && OnlyStatus(w, v, r) && ManagerSettled(c, v, r) &&
            v == w.(rms := v.rms, queue := v.queue) && w.queue <= v.queue <= w.queue + {r}
  {
    var res := Rejection(Verdict(c, w.rms, r).value);
    ManagerByVerdict(c, w, r);
    WriteResultLands(w, r, w.rms[r], res, Done);
    VerdictIsStable(c, w, WriteResult(w, r, w.rms[r], res, Done).0, r, r);
  }

  /** The stages of an admitted RolloutManager, run quietly. */
  function Staged(c: Config, w: World, r: Request, rm: RolloutManager): (World, Outcome) {
    RunStages(c, w, r, rm.spec, Pipeline(rm.spec))
  }

  /** The result of an admitted reconcile, from how its stages end and the objects they leave. */
  function ResultOf(r: Request, status: Status, objs: map<Key, Obj>, o: Outcome): StatusResult {
    match o
    case Done => PhaseResult(status, CurrentPhase(objs, r))
    case Failed(m) => ErrorResult(m)
    case Panicked => ErrorResult(Internal)
  }

  lemma AdmittedResult(c: Config, w: World, r: Request, rm: RolloutManager)
    requires w.Quiet()
    ensures var (v, o) := Staged(c, w, r, rm);
            v.Quiet() && RunAdmitted(c, w, r, rm) == (v, ResultOf(r, rm.status, v.objs, o), o)
    ensures Within(w, Staged(c, w, r, rm).0, Footprints(r, Pipeline(rm.spec)))
  {
    StagesWithin(c, r, rm.spec, Pipeline(rm.spec), w);
  }

  lemma StagedSettles(c: Config, w: World, r: Request, rm: RolloutManager)
    requires w.Quiet() && Staged(c, w, r, rm).1 == Done
    ensures Within(w, Staged(c, w, r, rm).0, Footprints(r, Pipeline(rm.spec)))
    ensures AllSettled(c, r, rm.spec, Pipeline(rm.spec), Staged(c, w, r, rm).0.objs)
    ensures RunAdmitted(c, w, r, rm) ==
            (Staged(c, w, r, rm).0, PhaseResult(rm.status, CurrentPhase(Staged(c, w, r, rm).0.objs, r)), Done)
  {
    PipelineIsDisjoint(r, rm.spec);
    StagesWithin(c, r, rm.spec, Pipeline(rm.spec), w);
    StagesFixpoint(c, r, rm.spec, Pipeline(rm.spec), w, Staged(c, w, r, rm).0);
  }

  lemma PhaseWriteSettles(c: Config, w: World, r: Request, rm: RolloutManager)
    requires w.Quiet() && r in w.rms && w.rms[r] == rm && AllSettled(c, r, rm.spec, Pipeline(rm.spec), w.objs)
    ensures var (v, o) := WriteResult(w, r, rm, PhaseResult(rm.status, CurrentPhase(w.objs, r)), Done);
            o == Done && OnlyStatus(w, v, r) && AdmittedSettled(c, r, v.rms[r], v.objs) &&
            v.objs == w.objs && w.queue <= v.queue <= w.queue + {r}
  {
    var res := PhaseResult(rm.status, CurrentPhase(w.objs, r));
    WriteResultLands(w, r, rm, res, Done);
    PhaseSettles(rm.status, WriteResult(w, r, rm, res, Done).0.rms[r].status, CurrentPhase(w.objs, r));
  }

  lemma AdmissionSettles(c: Config, w: World, r: Request)
    requires w.Quiet() && r in w.rms && w.NamespaceIsLive(r.ns) && Verdict(c, w.rms, r).None?
    requires Staged(c, w, r, w.rms[r]).1 == Done
    ensures var (v, o) := Reconcile(c, w, r);
            o == Done && OnlyStatus(w, v, r) && ManagerSettled(c, v, r) &&
            v.objs == Staged(c, w, r, w.rms[r]).0.objs &&
            Staged(c, w, r, w.rms[r]).0.queue <= v.queue <= Staged(c, w, r, w.rms[r]).0.queue + {r}
  {
    StagedSettles(c, w, r, w.rms[r]);
    ManagerByVerdict(c, w, r);
    var w1 := Staged(c, w, r, w.rms[r]).0;
    PhaseWriteSettles(c, w1, r, w.rms[r]);
    VerdictIsStable(c, w1, Reconcile(c, w, r).0, r, r);
  }
}
