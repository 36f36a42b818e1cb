/** Draining: in cluster-scoped mode, once outsiders stop and calls succeed, processing the
    queue in any order ends, with every RolloutManager settled, unless the admitted one
    cannot be carried out at all; then it stays queued for ever. */
module Draining {
  import opened GoTypes
  import opened RolloutManagers
  import opened Statuses
  import opened Cluster
  import opened Operator
  import opened Settling
  import opened Convergence
  import opened Fixpoint
  import opened Wakeups
  import opened Progress
  import opened Reconcilers

  // ----- The objects in the RolloutManager's own namespace -----

  predicate IsClusterStage(s: Stage) {
    s.ClusterRoleStage? || s.AggregateStage? || s.ClusterRoleBindingStage?
  }

  /** What a stage drives in the RolloutManager's namespace is settled. */
  predicate OwnPart(c: Config, r: Request, spec: Spec, s: Stage, objs: map<Key, Obj>) {
    if IsClusterStage(s) then OppositeKey(r, s).Some? ==> OppositeKey(r, s).value !in objs
    else StageSettled(c, r, spec, s, objs)
  }

  predicate OwnSettled(c: Config, r: Request, spec: Spec, stages: seq<Stage>, objs: map<Key, Obj>) {
    forall s | s in stages :: OwnPart(c, r, spec, s, objs)
  }

  lemma SettledIsOwnSettled(c: Config, r: Request, spec: Spec, stages: seq<Stage>, objs: map<Key, Obj>)
    requires AllSettled(c, r, spec, stages, objs)
    ensures OwnSettled(c, r, spec, stages, objs)
  {
    forall s | s in stages ensures OwnPart(c, r, spec, s, objs) {
      assert StageSettled(c, r, spec, s, objs);
    }
  }

  /** Driving a cluster-scoped object wakes existing RolloutManagers only. */
  lemma EnsureClusterScoped(w: World, k: Key, expected: Obj, spec: Spec)
    requires w.Quiet() && !IsOwnedKind(k.kind)
    ensures Ensure(w, k, expected, spec).0.queue <= w.queue + w.rms.Keys
  {
    QuietEnsure(w, k, expected, spec);
    ClusterScopedWakes(w, k, Ensured(w.Lookup(k), expected, spec));
  }

  lemma ClusterScopedWakes(w: World, k: Key, after: Obj)
    requires !IsOwnedKind(k.kind)
    ensures SetObject(w, k, Some(after), true).queue <= w.queue + w.rms.Keys
  {
  }

  lemma ClusterStageWakes(c: Config, r: Request, spec: Spec, s: Stage, w: World)
    requires w.Quiet() && IsClusterStage(s) && OwnPart(c, r, spec, s, w.objs)
    ensures RunObject(c, w, r, spec, s).0.queue <= w.queue + w.rms.Keys
  {
    EnsureClusterScoped(w, KeyOf(r, s), Expected(c, r, spec, s), spec);
    match OppositeKey(r, s)
    case None =>
    case Some(opposite) => DropOppositeLands(w, opposite);
  }

  lemma OwnStageWakes(c: Config, r: Request, spec: Spec, s: Stage, w: World)
    requires w.Quiet() && OwnPart(c, r, spec, s, w.objs)
    ensures RunStage(c, w, r, spec, s).0.queue <= w.queue + w.rms.Keys
  {
    if IsClusterStage(s) {
      ClusterStageWakes(c, r, spec, s, w);
    } else {
      StageRepeats(c, r, spec, s, w);
    }
  }

  lemma OwnPartIsLocal(c: Config, r: Request, spec: Spec, s: Stage, w: World, v: World, keys: set<Key>)
    requires Within(w, v, keys) && OwnPart(c, r, spec, s, w.objs)
    requires forall k | k in Footprint(r, s) && k in keys :: IsClusterStage(s) && !IsOwnedKind(k.kind)
    ensures OwnPart(c, r, spec, s, v.objs)
  {
    if IsClusterStage(s) {
      if OppositeKey(r, s).Some? {
        assert OppositeKey(r, s).value in Footprint(r, s);
        assert v.Lookup(OppositeKey(r, s).value) == w.Lookup(OppositeKey(r, s).value);
      }
    } else {
      forall k | k in Footprint(r, s) ensures v.Lookup(k) == w.Lookup(k) {
      }
      SettledIsLocal(c, r, spec, s, w.objs, v.objs);
    }
  }

  lemma {:induction false} OwnStagesWake(c: Config, r: Request, spec: Spec, stages: seq<Stage>, w: World)
    requires w.Quiet() && Disjoint(r, stages) && OwnSettled(c, r, spec, stages, w.objs)
    ensures RunStages(c, w, r, spec, stages).0.queue <= w.queue + w.rms.Keys
    decreases |stages|
  {
    if stages != [] {
      var s, rest := stages[0], stages[1..];
      OwnStageWakes(c, r, spec, s, w);
      StageLands(c, r, spec, s, w);
      var (w1, o) := RunStage(c, w, r, spec, s);
      if o == Done {
        forall t | t in rest ensures OwnPart(c, r, spec, t, w1.objs) {
          var i :| 0 <= i < |rest| && rest[i] == t;
          assert Footprint(r, stages[0]) !! Footprint(r, stages[i + 1]);
          OwnPartIsLocal(c, r, spec, t, w, w1, Footprint(r, s));
        }
        HeadIsSeparate(r, stages);
        OwnStagesWake(c, r, spec, rest, w1);
      }
    }
  }

  // ----- Cleanup -----

  lemma {:induction false} RemovalsWake(w: World, keys: seq<Key>)
    requires w.Quiet() && forall k | k in keys :: !IsOwnedKind(k.kind)
    ensures RemoveAll(w, keys).0.queue <= w.queue + w.rms.Keys
    decreases |keys|
  {
    if keys != [] {
      RemovalsWake(Remove(w, keys[0]).0, keys[1..]);
    }
  }

  lemma CleanupLands(w: World)
    requires w.Quiet()
    ensures var (v, o) := Cleanup(w);
            o == Done && Within(w, v, set k | k in CLUSTER_SCOPED) && v.queue <= w.queue + w.rms.Keys &&
            (CLUSTER_ROLE in w.objs ==> w.rms.Keys <= v.queue)
  {
    RemoveAllLands(w, CLUSTER_SCOPED);
    RemovalsWake(w, CLUSTER_SCOPED);
    assert CLUSTER_SCOPED[0] == CLUSTER_ROLE;
    RemoveAllLands(Remove(w, CLUSTER_ROLE).0, CLUSTER_SCOPED[1..]);
  }

  lemma CleanupIsElsewhere(c: Config, r: Request, spec: Spec, w: World, v: World)
    requires Within(w, v, set k | k in CLUSTER_SCOPED) && !spec.namespaceScoped
    ensures OwnSettled(c, r, spec, Pipeline(spec), w.objs) ==> OwnSettled(c, r, spec, Pipeline(spec), v.objs)
    ensures LiveWorks(c, r, spec, w.objs) <==> LiveWorks(c, r, spec, v.objs)
    ensures RestartWorks(c, r, spec, w.objs) <==> RestartWorks(c, r, spec, v.objs)
  {
    CleanupKeepsWorks(c, r, spec, w, v);
    if OwnSettled(c, r, spec, Pipeline(spec), w.objs) {
      forall s | s in Pipeline(spec) ensures OwnPart(c, r, spec, s, v.objs) {
        assert OwnPart(c, r, spec, s, w.objs);
        ClusterStagesOnly(r, spec, s);
        OwnPartIsLocal(c, r, spec, s, w, v, set k | k in CLUSTER_SCOPED);
      }
    }
  }

  lemma CleanupKeepsWorks(c: Config, r: Request, spec: Spec, w: World, v: World)
    requires Within(w, v, set k | k in CLUSTER_SCOPED)
    ensures LiveWorks(c, r, spec, w.objs) <==> LiveWorks(c, r, spec, v.objs)
    ensures RestartWorks(c, r, spec, w.objs) <==> RestartWorks(c, r, spec, v.objs)
  {
    assert v.Lookup(KeyOf(r, ConfigMapStage)) == w.Lookup(KeyOf(r, ConfigMapStage));
    assert v.Lookup(KeyOf(r, DeploymentStage)) == w.Lookup(KeyOf(r, DeploymentStage));
    WorksIsLocal(c, r, spec, w, v);
  }

  lemma ClusterStagesOnly(r: Request, spec: Spec, s: Stage)
    requires s in Pipeline(spec) && !spec.namespaceScoped
    ensures forall k | k in Footprint(r, s) && k in CLUSTER_SCOPED :: IsClusterStage(s) && !IsOwnedKind(k.kind)
  {
  }

  // ----- The measure -----

  /** At most one RolloutManager can be admitted, so this speaks of one. */
  ghost predicate Workable(c: Config, w: World) {
    forall r | LiveAdmitted(c, w, r) :: CrWorks(c, w.rms[r].spec) && LiveWorks(c, r, w.rms[r].spec, w.objs)
  }

  ghost predicate OwnAllSettled(c: Config, w: World) {
    forall r | LiveAdmitted(c, w, r) :: OwnSettled(c, r, w.rms[r].spec, Pipeline(w.rms[r].spec), w.objs)
  }

  ghost predicate RestartsWork(c: Config, w: World) {
    forall r | LiveAdmitted(c, w, r) :: RestartWorks(c, r, w.rms[r].spec, w.objs)
  }

  /** How far the admitted RolloutManager's namespace is from settled. */
  ghost function Distance(c: Config, w: World): nat {
    if OwnAllSettled(c, w) then 0 else if RestartsWork(c, w) then 1 else 2
  }

  /** Requests for RolloutManagers that do not exist. */
  ghost function Missing(w: World): set<Request> {
    set q | q in w.queue && q !in w.rms
  }

  ghost function Unsettled(c: Config, w: World): set<Request> {
    set q | q in w.rms && !ManagerSettled(c, w, q)
  }

  ghost predicate Smaller(c: Config, v: World, w: World) {
    Distance(c, v) < Distance(c, w) || (Distance(c, v) == Distance(c, w) && (
    |Missing(v)| < |Missing(w)| || (|Missing(v)| == |Missing(w)| && (
    |Unsettled(c, v)| < |Unsettled(c, w)| || (|Unsettled(c, v)| == |Unsettled(c, w)| &&
    |v.queue| < |w.queue|)))))
  }

  lemma {:induction false} NoMore<T>(a: set<T>, b: set<T>)
    requires a <= b
    ensures |a| <= |b|
  {
    if a != {} {
      var x :| x in a;
      NoMore(a - {x}, b - {x});
    }
  }

  lemma Fewer<T>(a: set<T>, b: set<T>, x: T)
    requires a <= b && x in b && x !in a
    ensures |a| < |b|
  {
    NoMore(a, b - {x});
  }

  lemma OneAdmitted(c: Config, w: World, r: Request, q: Request)
    requires !c.namespaceScoped && LiveAdmitted(c, w, r) && LiveAdmitted(c, w, q)
    ensures r == q
  {
  }

  lemma AdmissionIsStable(c: Config, w: World, v: World, r: Request)
    requires OnlyStatus(w, v, r)
    ensures forall q :: LiveAdmitted(c, v, q) <==> LiveAdmitted(c, w, q)
  {
    SameAdmission(c, w, v);
  }

  /** Who is settled among the others: only the admitted one depends on objects. */
  lemma OthersStaySettled(c: Config, w: World, v: World, r: Request, q: Request)
    requires !c.namespaceScoped && OnlyStatus(w, v, r) && q != r && q in w.rms
    requires v.objs == w.objs || !LiveAdmitted(c, w, q)
    ensures ManagerSettled(c, v, q) <==> ManagerSettled(c, w, q)
  {
    VerdictIsStable(c, w, v, r, q);
  }

  // ----- One turn of the worker -----

  function Popped(w: World, r: Request): World {
    w.(queue := w.queue - {r})
  }

  ghost predicate Ready(c: Config, w: World) {
    w.Quiet() && NamespacesExist(w) && Workable(c, w)
  }

  ghost predicate UnsettledQueued(c: Config, w: World) {
    Unsettled(c, w) <= w.queue
  }

  /** Nobody comes or goes and no spec changes. */
  ghost predicate SameManagers(w: World, v: World) {
    v.namespaces == w.namespaces && v.rms.Keys == w.rms.Keys && forall q | q in w.rms :: v.rms[q].spec == w.rms[q].spec
  }

  /** What every turn is shown to do. */
  ghost predicate Turns(c: Config, w: World, v: World) {
    Ready(c, v) && Smaller(c, v, w) && SameManagers(w, v) && (UnsettledQueued(c, w) ==> UnsettledQueued(c, v))
  }

  /** A request for a settled RolloutManager, or in a terminating namespace, is dropped. */
  lemma IdleTurn(c: Config, w: World, r: Request)
    requires Ready(c, w) && r in w.queue && (r in w.rms ==> ManagerSettled(c, w, r))
    ensures Turns(c, w, Popped(w, r))
  {
    var v := Popped(w, r);
    assert forall q :: LiveAdmitted(c, v, q) <==> LiveAdmitted(c, w, q);
    assert Unsettled(c, v) == Unsettled(c, w);
    assert Distance(c, v) == Distance(c, w);
    NoMore(Missing(v), Missing(w));
    Fewer(v.queue, w.queue, r);
  }

  lemma CleanupTurn(c: Config, w: World, r: Request)
    requires Ready(c, w) && !c.namespaceScoped && r in w.queue && r !in w.rms
    ensures Turns(c, w, Cleanup(Popped(w, r)).0) && Cleanup(Popped(w, r)).1 == Done
  {
    var p := Popped(w, r);
    var v := Cleanup(p).0;
    CleanupLands(p);
    assert forall q :: LiveAdmitted(c, v, q) <==> LiveAdmitted(c, w, q);
    forall q | LiveAdmitted(c, w, q)
      ensures OwnSettled(c, q, w.rms[q].spec, Pipeline(w.rms[q].spec), w.objs) ==>
              OwnSettled(c, q, v.rms[q].spec, Pipeline(v.rms[q].spec), v.objs)
      ensures LiveWorks(c, q, w.rms[q].spec, w.objs) <==> LiveWorks(c, q, v.rms[q].spec, v.objs)
      ensures RestartWorks(c, q, w.rms[q].spec, w.objs) <==> RestartWorks(c, q, v.rms[q].spec, v.objs)
    {
      CleanupIsElsewhere(c, q, w.rms[q].spec, p, v);
    }
    Fewer(Missing(v), Missing(w), r);
    if UnsettledQueued(c, w) {
      CleanupKeepsQueued(c, w, r, v);
    }
  }

  lemma CleanupKeepsQueued(c: Config, w: World, r: Request, v: World)
    requires NamespacesExist(w) && !c.namespaceScoped && r !in w.rms && UnsettledQueued(c, w)
    requires Within(Popped(w, r), v, set k | k in CLUSTER_SCOPED) && (CLUSTER_ROLE in w.objs ==> w.rms.Keys <= v.queue)
    ensures UnsettledQueued(c, v)
  {
    forall q | q in v.rms && !ManagerSettled(c, v, q) ensures q in v.queue {
      if CLUSTER_ROLE !in w.objs && ManagerSettled(c, w, q) {
        assert Verdict(c, w.rms, q).None? && w.NamespaceIsLive(q.ns);
        SettledHasClusterRole(c, q, w.rms[q].spec, w.objs);
      } else if CLUSTER_ROLE !in w.objs {
        assert q in Unsettled(c, w);
      }
    }
  }

  lemma SettledHasClusterRole(c: Config, r: Request, spec: Spec, objs: map<Key, Obj>)
    requires AllSettled(c, r, spec, Pipeline(spec), objs) && !spec.namespaceScoped
    ensures CLUSTER_ROLE in objs
  {
    assert Pipeline(spec)[1] == ClusterRoleStage;
    assert StageSettled(c, r, spec, ClusterRoleStage, objs);
  }

  /** The effect of a turn that settles its RolloutManager. */
  lemma SettlingTurn(c: Config, w: World, r: Request, v: World)
    requires NamespacesExist(w) && !c.namespaceScoped && r in w.queue && r in w.rms && !ManagerSettled(c, w, r)
    requires OnlyStatus(w, v, r) && ManagerSettled(c, v, r) && w.queue - {r} <= v.queue
    requires v.objs == w.objs || LiveAdmitted(c, w, r)
    ensures NamespacesExist(v) && v.Quiet() && |Unsettled(c, v)| < |Unsettled(c, w)|
    ensures UnsettledQueued(c, w) ==> UnsettledQueued(c, v)
  {
    forall q | q in w.rms && q != r ensures ManagerSettled(c, v, q) <==> ManagerSettled(c, w, q) {
      if LiveAdmitted(c, w, q) && LiveAdmitted(c, w, r) {
        OneAdmitted(c, w, r, q);
      }
      OthersStaySettled(c, w, v, r, q);
    }
    assert Unsettled(c, v) == Unsettled(c, w) - {r};
    Fewer(Unsettled(c, v), Unsettled(c, w), r);
  }

  lemma RejectedTurn(c: Config, w: World, r: Request)
    requires Ready(c, w) && !c.namespaceScoped && r in w.queue && r in w.rms && !ManagerSettled(c, w, r)
    requires Verdict(c, w.rms, r).Some?
    ensures Turns(c, w, Reconcile(c, Popped(w, r), r).0) && Reconcile(c, Popped(w, r), r).1 == Done
  {
    var p := Popped(w, r);
    RejectionSettles(c, p, r);
    var v := Reconcile(c, p, r).0;
    SettlingTurn(c, w, r, v);
    SameObjectsSameDistance(c, w, v, r);
    NoMore(Missing(v), Missing(w));
  }

  lemma SameObjectsSameDistance(c: Config, w: World, v: World, r: Request)
    requires OnlyStatus(w, v, r) && v.objs == w.objs
    ensures Distance(c, v) == Distance(c, w)
    ensures Workable(c, v) <==> Workable(c, w)
  {
    AdmissionIsStable(c, w, v, r);
    assert OwnAllSettled(c, v) == OwnAllSettled(c, w);
    assert RestartsWork(c, v) == RestartsWork(c, w);
  }

  // ----- The admitted RolloutManager -----

  lemma AdmittedLands(c: Config, w: World, r: Request)
    requires w.Quiet() && !c.namespaceScoped && LiveAdmitted(c, w, r)
    requires CrWorks(c, w.rms[r].spec) && LiveWorks(c, r, w.rms[r].spec, w.objs) && Staged(c, w, r, w.rms[r]).1 == Done
    ensures var (v, o) := Reconcile(c, w, r);
            o == Done && OnlyStatus(w, v, r) && ManagerSettled(c, v, r) && LiveWorks(c, r, w.rms[r].spec, v.objs) &&
            AllSettled(c, r, w.rms[r].spec, Pipeline(w.rms[r].spec), v.objs) && w.queue <= v.queue &&
            (OwnSettled(c, r, w.rms[r].spec, Pipeline(w.rms[r].spec), w.objs) ==> v.queue <= w.queue + w.rms.Keys)
  {
    AdmissionSettles(c, w, r);
    StagedSettles(c, w, r, w.rms[r]);
    StagedKeepsData(c, w, r, w.rms[r]);
    if OwnSettled(c, r, w.rms[r].spec, Pipeline(w.rms[r].spec), w.objs) {
      PipelineIsDisjoint(r, w.rms[r].spec);
      OwnStagesWake(c, r, w.rms[r].spec, Pipeline(w.rms[r].spec), w);
    }
  }

  /** A turn that succeeds settles it; if its namespace was settled before, nobody unknown is woken. */
  lemma AdmittedTurn(c: Config, w: World, r: Request)
    requires Ready(c, w) && !c.namespaceScoped && r in w.queue && LiveAdmitted(c, w, r) && !ManagerSettled(c, w, r)
    ensures Staged(c, Popped(w, r), r, w.rms[r]).1 == Done ==>
            Turns(c, w, Reconcile(c, Popped(w, r), r).0) && Reconcile(c, Popped(w, r), r).1 == Done
  {
    if Staged(c, Popped(w, r), r, w.rms[r]).1 == Done {
      assert LiveAdmitted(c, Popped(w, r), r);
      AdmittedLands(c, Popped(w, r), r);
      SuccessIsProgress(c, w, Reconcile(c, Popped(w, r), r).0, r);
    }
  }

  lemma SuccessIsProgress(c: Config, w: World, v: World, r: Request)
    requires Ready(c, w) && !c.namespaceScoped && r in w.queue && LiveAdmitted(c, w, r) && !ManagerSettled(c, w, r)
    requires OnlyStatus(w, v, r) && ManagerSettled(c, v, r) && LiveWorks(c, r, w.rms[r].spec, v.objs) &&
             w.queue - {r} <= v.queue
    requires AllSettled(c, r, w.rms[r].spec, Pipeline(w.rms[r].spec), v.objs)
    requires OwnSettled(c, r, w.rms[r].spec, Pipeline(w.rms[r].spec), w.objs) ==> v.queue <= w.queue + w.rms.Keys
    ensures Turns(c, w, v)
  {
    SettlingTurn(c, w, r, v);
    SettledIsClose(c, w, v, r);
    if OwnAllSettled(c, w) {
      NoMore(Missing(v), Missing(w));
    }
  }

  lemma SettledIsClose(c: Config, w: World, v: World, r: Request)
    requires !c.namespaceScoped && LiveAdmitted(c, w, r) && OnlyStatus(w, v, r) && Workable(c, w)
    requires AllSettled(c, r, w.rms[r].spec, Pipeline(w.rms[r].spec), v.objs) && LiveWorks(c, r, w.rms[r].spec, v.objs)
    ensures Distance(c, v) == 0 && Workable(c, v)
  {
    AdmissionIsStable(c, w, v, r);
    SettledIsOwnSettled(c, r, w.rms[r].spec, Pipeline(w.rms[r].spec), v.objs);
    forall q | LiveAdmitted(c, v, q) ensures q == r {
      OneAdmitted(c, w, r, q);
    }
  }

  lemma StagedKeepsData(c: Config, w: World, r: Request, rm: RolloutManager)
    requires w.Quiet() && CrWorks(c, rm.spec) && LiveWorks(c, r, rm.spec, w.objs)
    ensures Advances(c, r, rm.spec, w, Staged(c, w, r, rm).0, Staged(c, w, r, rm).1)
  {
    StagesAdvance(c, r, rm.spec, Pipeline(rm.spec), w);
  }

  lemma PanickedLands(c: Config, w: World, r: Request)
    requires w.Quiet() && !c.namespaceScoped && LiveAdmitted(c, w, r)
    requires CrWorks(c, w.rms[r].spec) && LiveWorks(c, r, w.rms[r].spec, w.objs) &&
             Staged(c, w, r, w.rms[r]).1 == Panicked
    ensures Reconcile(c, w, r) == Staged(c, w, r, w.rms[r])
    ensures Within(w, Reconcile(c, w, r).0, Footprints(r, Pipeline(w.rms[r].spec)))
    ensures Advances(c, r, w.rms[r].spec, w, Reconcile(c, w, r).0, Panicked)
  {
    ManagerByVerdict(c, w, r);
    StagesWithin(c, r, w.rms[r].spec, Pipeline(w.rms[r].spec), w);
    StagedKeepsData(c, w, r, w.rms[r]);
  }

  /** A panic while restarting pods leaves the ConfigMap written, so that it cannot recur. */
  lemma PanickedTurn(c: Config, w: World, r: Request)
    requires Ready(c, w) && !c.namespaceScoped && r in w.queue && LiveAdmitted(c, w, r)
    requires Staged(c, Popped(w, r), r, w.rms[r]).1 == Panicked
    ensures Reconcile(c, Popped(w, r), r).1 == Panicked
    ensures var v := Reconcile(c, Popped(w, r), r).0; Turns(c, w, v.(queue := v.queue + {r}))
  {
    assert LiveAdmitted(c, Popped(w, r), r);
    PanickedLands(c, Popped(w, r), r);
    var v := Reconcile(c, Popped(w, r), r).0;
    PanicIsProgress(c, w, v.(queue := v.queue + {r}), r);
  }

  lemma PanicIsProgress(c: Config, w: World, v: World, r: Request)
    requires Ready(c, w) && !c.namespaceScoped && LiveAdmitted(c, w, r) && w.queue <= v.queue && r in v.queue
    requires v.Quiet() && v.rms == w.rms && v.namespaces == w.namespaces && LiveWorks(c, r, w.rms[r].spec, v.objs)
    requires RestartWorks(c, r, w.rms[r].spec, v.objs) && !RestartWorks(c, r, w.rms[r].spec, w.objs)
    ensures Turns(c, w, v)
  {
    assert w.rms[r := v.rms[r]] == w.rms;
    PanicIsCloser(c, w, v, r);
    if UnsettledQueued(c, w) {
      PanicKeepsQueued(c, w, v, r);
    }
  }

  lemma PanicIsCloser(c: Config, w: World, v: World, r: Request)
    requires w.Quiet() && !c.namespaceScoped && LiveAdmitted(c, w, r) && CrWorks(c, w.rms[r].spec)
    requires OnlyStatus(w, v, r) && LiveWorks(c, r, w.rms[r].spec, v.objs)
    requires RestartWorks(c, r, w.rms[r].spec, v.objs) && !RestartWorks(c, r, w.rms[r].spec, w.objs)
    ensures Workable(c, v) && Distance(c, v) < Distance(c, w)
  {
    PanicMeansUnsettled(c, w, r, w.rms[r].spec);
    AdmissionIsStable(c, w, v, r);
    forall q | LiveAdmitted(c, v, q) ensures q == r {
      OneAdmitted(c, w, r, q);
    }
  }

  lemma PanicKeepsQueued(c: Config, w: World, v: World, r: Request)
    requires !c.namespaceScoped && LiveAdmitted(c, w, r) && w.queue <= v.queue && r in v.queue && UnsettledQueued(c, w)
    requires OnlyStatus(w, v, r)
    ensures UnsettledQueued(c, v)
  {
    forall q | q in v.rms && !ManagerSettled(c, v, q) ensures q in v.queue {
      if q != r {
        if LiveAdmitted(c, w, q) {
          OneAdmitted(c, w, r, q);
        }
        OthersStaySettled(c, w, v, r, q);
        assert q in Unsettled(c, w);
      }
    }
  }

  lemma PanicMeansUnsettled(c: Config, w: World, r: Request, spec: Spec)
    requires w.Quiet() && !spec.namespaceScoped && !RestartWorks(c, r, spec, w.objs)
    ensures !OwnSettled(c, r, spec, Pipeline(spec), w.objs)
  {
    assert Pipeline(spec)[7] == ConfigMapStage;
    assert !OwnPart(c, r, spec, ConfigMapStage, w.objs);
  }

  /** Every turn of the worker makes the measure smaller, whichever request it takes. */
  lemma WorkDecreases(c: Config, w: World, r: Request)
    requires Ready(c, w) && !c.namespaceScoped && r in w.queue
    ensures Turns(c, w, Work(c, w, r))
  {
    var p := Popped(w, r);
    if r !in w.rms {
      IdleTurn(c, w, r);
      CleanupTurn(c, w, r);
    } else if ManagerSettled(c, w, r) {
      assert ManagerSettled(c, p, r);
      SettledIsIdle(c, p, r);
      IdleTurn(c, w, r);
    } else if Verdict(c, w.rms, r).Some? {
      RejectedTurn(c, w, r);
    } else {
      StagedKeepsData(c, p, r, w.rms[r]);
      if Staged(c, p, r, w.rms[r]).1 == Done {
        AdmittedTurn(c, w, r);
      } else {
        PanickedTurn(c, w, r);
      }
    }
  }

  /** Once drained, every RolloutManager is at its fixpoint and the admitted one has its objects. */
  lemma DrainedIsSettled(c: Config, w: World)
    requires w.Quiet() && NamespacesExist(w) && !c.namespaceScoped && UnsettledQueued(c, w) && w.queue == {}
    ensures forall r | r in w.rms :: ManagerSettled(c, w, r) && Reconcile(c, w, r) == (w, Done)
    ensures forall r | LiveAdmitted(c, w, r) :: AllSettled(c, r, w.rms[r].spec, Pipeline(w.rms[r].spec), w.objs)
  {
    forall r | r in w.rms ensures ManagerSettled(c, w, r) && Reconcile(c, w, r) == (w, Done) {
      assert r !in Unsettled(c, w);
      SettledIsIdle(c, w, r);
    }
    forall r | LiveAdmitted(c, w, r) ensures AllSettled(c, r, w.rms[r].spec, Pipeline(w.rms[r].spec), w.objs) {
    }
  }

  // ----- What is assumed of the admitted RolloutManager is needed -----

  /** The ConfigMap or the Deployment stage cannot get past what it finds. */
  predicate Stops(c: Config, r: Request, spec: Spec, s: Stage, objs: map<Key, Obj>) {
    (s.ConfigMapStage? && (PluginProblem(c, spec).Some? || !DataWorks(r, objs))) ||
    (s.DeploymentStage? && (Deployments.Desired(c, spec).Err? || !UpdateWorks(c, r, spec, objs)))
  }

  lemma StoppedStage(c: Config, r: Request, spec: Spec, s: Stage, w: World)
    requires w.Quiet() && Stops(c, r, spec, s, w.objs)
    ensures RunStage(c, w, r, spec, s).0 == w && RunStage(c, w, r, spec, s).1 != Done
  {
    if s.ConfigMapStage? {
      StoppedConfigMap(c, r, spec, w);
    } else {
      StoppedDeployment(c, r, spec, w);
    }
  }

  lemma StoppedConfigMap(c: Config, r: Request, spec: Spec, w: World)
    requires w.Quiet() && (PluginProblem(c, spec).Some? || !DataWorks(r, w.objs))
    ensures RunConfigMap(c, w, r, spec).0 == w && RunConfigMap(c, w, r, spec).1 != Done
  {
  }

  lemma StoppedDeployment(c: Config, r: Request, spec: Spec, w: World)
    requires w.Quiet() && (Deployments.Desired(c, spec).Err? || !UpdateWorks(c, r, spec, w.objs))
    ensures RunDeployment(c, w, r, spec).0 == w && RunDeployment(c, w, r, spec).1 != Done
  {
    if Deployments.Desired(c, spec).Ok? {
      DeploymentConverges(c, w, r, spec, Deployments.Desired(c, spec).value);
    }
  }

  lemma StopsIsLocal(c: Config, r: Request, spec: Spec, s: Stage, w: World, v: World, t: Stage)
    requires Stops(c, r, spec, s, w.objs) && t != s && Within(w, v, Footprint(r, t))
    ensures Stops(c, r, spec, s, v.objs)
  {
    StagesShareNothing(r, s, t);
    assert KeyOf(r, s) in Footprint(r, s);
    StopsBySameObjects(c, r, spec, s, w, v);
  }

  lemma {:induction false} StoppedStages(c: Config, r: Request, spec: Spec, s: Stage, stages: seq<Stage>, w: World)
    requires w.Quiet() && Stops(c, r, spec, s, w.objs)
    ensures Stops(c, r, spec, s, RunStages(c, w, r, spec, stages).0.objs)
    ensures s in stages ==> RunStages(c, w, r, spec, stages).1 != Done
    decreases |stages|
  {
    if stages != [] {
      var (w1, o) := RunStage(c, w, r, spec, stages[0]);
      if stages[0] == s {
        StoppedStage(c, r, spec, s, w);
      } else {
        StageLands(c, r, spec, stages[0], w);
        StopsIsLocal(c, r, spec, s, w, w1, stages[0]);
        if o == Done {
          StoppedStages(c, r, spec, s, stages[1..], w1);
        }
      }
    }
  }

  lemma StoppedPipeline(c: Config, r: Request, rm: RolloutManager, s: Stage, w: World)
    requires w.Quiet() && Stops(c, r, rm.spec, s, w.objs)
    ensures Stops(c, r, rm.spec, s, Staged(c, w, r, rm).0.objs) && Staged(c, w, r, rm).1 != Done
    ensures Within(w, Staged(c, w, r, rm).0, Footprints(r, Pipeline(rm.spec)))
  {
    assert Pipeline(rm.spec)[7] == ConfigMapStage && Pipeline(rm.spec)[8] == DeploymentStage;
    StoppedStages(c, r, rm.spec, s, Pipeline(rm.spec), w);
    StagesWithin(c, r, rm.spec, Pipeline(rm.spec), w);
  }

  /** An admitted RolloutManager that one of its stages cannot carry out. */
  ghost predicate Stuck(c: Config, w: World, r: Request, s: Stage) {
    w.Quiet() && NamespacesExist(w) && r in w.queue && LiveAdmitted(c, w, r) && Stops(c, r, w.rms[r].spec, s, w.objs)
  }

  lemma StuckByItself(c: Config, w: World, r: Request, s: Stage)
    requires !c.namespaceScoped && Stuck(c, w, r, s)
    ensures Stuck(c, Work(c, w, r), r, s)
  {
    var p, rm := Popped(w, r), w.rms[r];
    ManagerByVerdict(c, p, r);
    StoppedPipeline(c, r, rm, s, p);
    var (w1, o) := Staged(c, p, r, rm);
    if o.Failed? {
      WriteResultLands(w1, r, rm, ErrorResult(o.cause), o);
    }
    AdmissionIsStable(c, w, Work(c, w, r), r);
  }

  lemma StuckElsewhere(c: Config, w: World, r: Request, s: Stage, v: World, q: Request)
    requires !c.namespaceScoped && Stuck(c, w, r, s) && r != q && w.queue - {q} <= v.queue
    requires v.Quiet() && v.namespaces == w.namespaces && (v.rms == w.rms || OnlyStatus(w, v, q))
    requires Within(w.(queue := v.queue), v.(rms := w.rms), set k | k in CLUSTER_SCOPED)
    ensures Stuck(c, v, r, s)
  {
    if v.rms != w.rms {
      AdmissionIsStable(c, w, v, q);
    }
    var k, l := KeyOf(r, ConfigMapStage), KeyOf(r, DeploymentStage);
    assert v.(rms := w.rms).Lookup(k) == w.(queue := v.queue).Lookup(k);
    assert v.(rms := w.rms).Lookup(l) == w.(queue := v.queue).Lookup(l);
    StopsBySameObjects(c, r, w.rms[r].spec, s, w, v);
  }

  lemma StopsBySameObjects(c: Config, r: Request, spec: Spec, s: Stage, w: World, v: World)
    requires Stops(c, r, spec, s, w.objs) && v.Lookup(KeyOf(r, s)) == w.Lookup(KeyOf(r, s))
    ensures Stops(c, r, spec, s, v.objs)
  {
    if s.ConfigMapStage? {
      WorksIsLocal(c, r, spec, w, v);
    } else {
      UpdateWorksIsLocal(c, r, spec, w, v);
    }
  }

  /** Another request's turn changes nothing for it. */
  lemma StuckThroughOthers(c: Config, w: World, r: Request, s: Stage, q: Request)
    requires !c.namespaceScoped && Stuck(c, w, r, s) && r != q
    ensures Stuck(c, Work(c, w, q), r, s)
  {
    if q in w.queue {
      var p := Popped(w, q);
      if q !in w.rms {
        CleanupLands(p);
      } else if ManagerSettled(c, w, q) {
        assert ManagerSettled(c, p, q);
        SettledIsIdle(c, p, q);
      } else {
        if LiveAdmitted(c, w, q) {
          OneAdmitted(c, w, r, q);
        }
        RejectionSettles(c, p, q);
      }
      StuckElsewhere(c, w, r, s, Work(c, w, q), q);
    }
  }

  /** Such a RolloutManager is still queued after any number of turns: the queue never drains. */
  lemma {:induction false} StuckNeverDrains(c: Config, w: World, r: Request, s: Stage, actions: seq<Action>)
    requires !c.namespaceScoped && Stuck(c, w, r, s) && forall a | a in actions :: a.Process?
    ensures r in Run(c, w, actions).queue
    decreases |actions|
  {
    if actions != [] {
      var q := actions[0].r;
      if q == r {
        StuckByItself(c, w, r, s);
      } else {
        StuckThroughOthers(c, w, r, s, q);
      }
      StuckNeverDrains(c, Work(c, w, q), r, s, actions[1..]);
    }
  }

  lemma StoppedIsUnsettled(c: Config, r: Request, spec: Spec, s: Stage, objs: map<Key, Obj>)
    requires Stops(c, r, spec, s, objs)
    ensures !AllSettled(c, r, spec, Pipeline(spec), objs)
  {
    assert Pipeline(spec)[7] == ConfigMapStage && Pipeline(spec)[8] == DeploymentStage;
    assert !StageSettled(c, r, spec, s, objs);
  }

  /** If some order of turns drains the queue, the admitted RolloutManager can be carried out. */
  lemma DrainsOnlyIfWorkable(c: Config, w: World, actions: seq<Action>)
    requires !c.namespaceScoped && w.Quiet() && NamespacesExist(w) && UnsettledQueued(c, w)
    requires (forall a | a in actions :: a.Process?) && Run(c, w, actions).queue == {}
    ensures Workable(c, w)
  {
    forall r | LiveAdmitted(c, w, r) ensures CrWorks(c, w.rms[r].spec) && LiveWorks(c, r, w.rms[r].spec, w.objs) {
      var spec := w.rms[r].spec;
      if !(CrWorks(c, spec) && LiveWorks(c, r, spec, w.objs)) {
        var s := if PluginProblem(c, spec).Some? || !DataWorks(r, w.objs) then ConfigMapStage else DeploymentStage;
        StoppedIsUnsettled(c, r, spec, s, w.objs);
        assert r in Unsettled(c, w);
        StuckNeverDrains(c, w, r, s, actions);
      }
    }
  }

  /** The worker loop: it takes requests in any order, and it ends; with everybody settled if
      everybody unsettled was queued. */
  method Drain(reconciler: RolloutManagerReconciler)
    requires !reconciler.config.namespaceScoped
    requires Ready(reconciler.config, reconciler.client.world)
    modifies reconciler.client
    ensures reconciler.client.world.queue == {} && SameManagers(old(reconciler.client.world), reconciler.client.world)
    ensures old(UnsettledQueued(reconciler.config, reconciler.client.world)) ==>
            forall r | r in reconciler.client.world.rms :: ManagerSettled(reconciler.config, reconciler.client.world, r)
  {
    var client := reconciler.client;
    ghost var c := reconciler.config;
    ghost var start := client.world;
    while client.world.queue != {}
      invariant SameManagers(start, client.world)
      invariant Ready(c, client.world) && (UnsettledQueued(c, start) ==> UnsettledQueued(c, client.world))
      decreases Distance(c, client.world), |Missing(client.world)|, |Unsettled(c, client.world)|, |client.world.queue|
    {
      var r :| r in client.world.queue;
      WorkDecreases(c, client.world, r);
      client.world := client.world.(queue := client.world.queue - {r});
      var o := reconciler.ReconcileRequest(r);
      if o != Done {
        client.world := client.world.(queue := client.world.queue + {r});
      }
    }
    if UnsettledQueued(c, client.world) {
      DrainedIsSettled(c, client.world);
    }
  }
}
