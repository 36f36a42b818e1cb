/** Admission and scope: who passes the gates, what a rejected reconcile may change, and what
    a successful one leaves of the roles and bindings of either scope. */
module Scopes {
  import opened GoTypes
  import opened RolloutManagers
  import opened Metadata
  import opened Statuses
  import opened Cluster
  import opened Operator
  import opened Settling
  import opened Fixpoint
  import opened Progress
  import opened Traces

  // ----- Admission -----

  /** Everybody admitted has the operator's scope, and at most one of them is cluster-scoped. */
  lemma AdmittedShareScope(c: Config, rms: map<Request, RolloutManager>, r: Request, q: Request)
    requires Admitted(c, rms, r) && Admitted(c, rms, q)
    ensures rms[r].spec.namespaceScoped == rms[q].spec.namespaceScoped == c.namespaceScoped
    ensures !c.namespaceScoped ==> r == q && AllowedNamespace(c, r.ns)
  {
  }

  /** In a cluster-scoped operator somebody is admitted exactly when one cluster-scoped
      RolloutManager exists and its namespace is on the list. */
  lemma SomebodyAdmitted(c: Config, rms: map<Request, RolloutManager>)
    requires !c.namespaceScoped
    ensures (exists r :: Admitted(c, rms, r)) <==>
            (exists r | r in rms && !rms[r].spec.namespaceScoped ::
             AllowedNamespace(c, r.ns) && !OtherClusterScoped(rms, r))
  {
    forall r | r in rms
      ensures Admitted(c, rms, r) <==>
              !rms[r].spec.namespaceScoped && AllowedNamespace(c, r.ns) && !OtherClusterScoped(rms, r)
    {
    }
  }

  /** Only time has passed. */
  ghost predicate Idle(w: World, v: World) {
    Calm(v) && v == w.(schedule := v.schedule, now := v.now)
  }

  ghost predicate StatusOnly(w: World, v: World, r: Request) {
    Calm(v) && v.objs == w.objs && v.namespaces == w.namespaces && v.pods == w.pods && v.queue <= w.queue + {r} &&
    r in w.rms && r in v.rms && v.rms == w.rms[r := w.rms[r].(status := v.rms[r].status)]
  }

  lemma IdleIsStatusOnly(w: World, v: World, r: Request)
    requires Idle(w, v) && r in w.rms
    ensures StatusOnly(w, v, r)
  {
    assert w.rms[r := w.rms[r].(status := w.rms[r].status)] == w.rms;
  }

  lemma RejectedManager(c: Config, w: World, r: Request)
    requires Calm(w) && r in w.rms && Verdict(c, w.rms, r).Some?
    ensures Idle(w, ReconcileManager(c, w, r, w.rms[r]).0)
  {
    CalmBegin(w);
  }

  lemma WriteIsStatusOnly(w: World, r: Request, rm: RolloutManager, res: StatusResult, o: Outcome)
    requires Calm(w) && r in w.rms && w.rms[r] == rm
    ensures StatusOnly(w, WriteResult(w, r, rm, res, o).0, r)
  {
    CalmBegin(w);
    assert w.rms[r := rm.(status := rm.status)] == w.rms;
  }

  /** The world in which an existing RolloutManager comes to the gates: after the reading of the
      namespace and of the RolloutManager. */
  function AtGates(w: World): World {
    Begin(Begin(w))
  }

  predicate GetsToGates(w: World) {
    NextFault(w) == NoFault && NextFault(Begin(w)) == NoFault
  }

  /** How a reconcile of an existing RolloutManager begins: it gets to the gates, or stops before. */
  lemma ReachesManager(c: Config, w: World, r: Request)
    requires Calm(w) && r in w.rms && w.NamespaceIsLive(r.ns)
    ensures Idle(w, AtGates(w))
    ensures GetsToGates(w) ==>
            var (m, res, o) := ReconcileManager(c, AtGates(w), r, w.rms[r]);
            Reconcile(c, w, r) == WriteResult(m, r, w.rms[r], res, o)
    ensures !GetsToGates(w) ==> Idle(w, Reconcile(c, w, r).0) && Reconcile(c, w, r).1 != Done
  {
    CalmBegin(w);
    CalmBegin(Begin(w));
  }

  /** Failing calls or not: the reconcile of a RolloutManager that is turned away changes
      nothing but its own status, and wakes nobody but itself. */
  lemma RejectedChangesStatusOnly(c: Config, w: World, r: Request)
    requires Calm(w) && r in w.rms && w.NamespaceIsLive(r.ns) && Verdict(c, w.rms, r).Some?
    ensures StatusOnly(w, Reconcile(c, w, r).0, r)
  {
    ReachesManager(c, w, r);
    if GetsToGates(w) {
      var e := AtGates(w);
      RejectedManager(c, e, r);
      var (m, res, o) := ReconcileManager(c, e, r, w.rms[r]);
      WriteIsStatusOnly(m, r, w.rms[r], res, o);
    } else {
      IdleIsStatusOnly(w, Reconcile(c, w, r).0, r);
    }
  }

  // ----- Roles and bindings of either scope -----

  /** What a finished pass leaves of an object: there, with its body repaired. */
  lemma EnsureDone(w: World, k: Key, expected: Obj, spec: Spec)
    requires Calm(w) && Ensure(w, k, expected, spec).1 == Done && !expected.body.ConfigBody? &&
             !expected.body.DeploymentBody?
    ensures var v := Ensure(w, k, expected, spec).0;
            k in v.objs &&
            (expected.body.BindingBody? ==>
             v.objs[k].body.BindingBody? && v.objs[k].body.subjects == expected.body.subjects)
  {
    CalmBegin(w);
    CalmBegin(Begin(w));
  }

  /** A finished removal: the opposite object is gone unless it was there and its Get failed. */
  lemma DropDone(w: World, k: Key)
    requires Calm(w) && DropOpposite(w, k).1 == Done
    ensures k !in DropOpposite(w, k).0.objs <==> k !in w.objs || NextFault(w) == NoFault
  {
    CalmBegin(w);
    CalmBegin(Begin(w));
  }

  /** A stage of a scope finished: its own object is there with its subjects; the opposite one
      is gone, unless the operator could not see it. */
  ghost predicate Switched(r: Request, s: Stage, w: World, seen: bool, objs: map<Key, Obj>) {
    KeyOf(r, s) in objs &&
    (s.RoleBindingStage? || s.ClusterRoleBindingStage? ==>
      objs[KeyOf(r, s)].body.BindingBody? && objs[KeyOf(r, s)].body.subjects == ServiceAccountSubjects(r)) &&
    (OppositeKey(r, s).Some? ==> (OppositeKey(r, s).value !in objs <==> OppositeKey(r, s).value !in w.objs || seen))
  }

  lemma ScopedStageDone(c: Config, w: World, r: Request, spec: Spec, s: Stage)
    requires Calm(w) && OppositeKey(r, s).Some? && RunObject(c, w, r, spec, s).1 == Done
    ensures Switched(r, s, w, NextFault(w) == NoFault, RunObject(c, w, r, spec, s).0.objs)
  {
    var opposite, k, expected := OppositeKey(r, s).value, KeyOf(r, s), Expected(c, r, spec, s);
    var w1 := DropOpposite(w, opposite).0;
    var calls := LookAndDeleteLog(w, opposite, Get(w, opposite).1.Ok?);
    LookAndDelete(c, w, r, spec, opposite, Get(w, opposite).1.Ok?, {opposite});
    PlayKeeps(w, calls, {opposite});
    DropDone(w, opposite);
    EnsureDone(w1, k, expected, spec);
    var rest := EnsureLog(c, w1, Purpose(r, spec, s));
    EnsureCalls(c, w1, Purpose(r, spec, s), {k});
    PlayKeeps(w1, rest, {k});
    assert Ensure(w1, k, expected, spec).0.Lookup(opposite) == w1.Lookup(opposite);
  }

  lemma {:induction false} StagesKeep(c: Config, w: World, r: Request, spec: Spec, stages: seq<Stage>)
    requires Calm(w)
    ensures Keeps(w, RunStages(c, w, r, spec, stages).0, Footprints(r, stages))
    decreases |stages|
  {
    if stages != [] {
      StageKeeps(c, w, r, spec, stages[0]);
      var (w1, o) := RunStage(c, w, r, spec, stages[0]);
      if o == Done {
        StagesKeep(c, w1, r, spec, stages[1..]);
      }
    }
  }

  /** The world in which stage `i` begins. */
  function Reached(c: Config, w: World, r: Request, spec: Spec, stages: seq<Stage>, i: nat): World
    requires i <= |stages|
    decreases i
  {
    if i == 0 then w else Reached(c, RunStage(c, w, r, spec, stages[0]).0, r, spec, stages[1..], i - 1)
  }

  lemma SwitchedStays(r: Request, s: Stage, w: World, seen: bool, u: World, v: World)
    requires Switched(r, s, w, seen, u.objs)
    requires forall k | k in Footprint(r, s) :: v.Lookup(k) == u.Lookup(k)
    ensures Switched(r, s, w, seen, v.objs)
  {
    assert KeyOf(r, s) in Footprint(r, s);
    assert v.Lookup(KeyOf(r, s)) == u.Lookup(KeyOf(r, s));
    if OppositeKey(r, s).Some? {
      assert v.Lookup(OppositeKey(r, s).value) == u.Lookup(OppositeKey(r, s).value);
    }
  }

  lemma FirstStageSwitches(c: Config, w: World, r: Request, spec: Spec, stages: seq<Stage>)
    requires Calm(w) && Disjoint(r, stages) && stages != [] && OppositeKey(r, stages[0]).Some?
    requires RunStages(c, w, r, spec, stages).1 == Done
    ensures Switched(r, stages[0], w, NextFault(w) == NoFault, RunStages(c, w, r, spec, stages).0.objs)
  {
    ScopedStageDone(c, w, r, spec, stages[0]);
    StageKeeps(c, w, r, spec, stages[0]);
    var w1 := RunStage(c, w, r, spec, stages[0]).0;
    StagesKeep(c, w1, r, spec, stages[1..]);
    HeadIsSeparate(r, stages);
    SwitchedStays(r, stages[0], w, NextFault(w) == NoFault, w1, RunStages(c, w1, r, spec, stages[1..]).0);
  }

  lemma {:induction false} StageSwitches(c: Config, w: World, r: Request, spec: Spec, stages: seq<Stage>, i: nat)
    requires Calm(w) && Disjoint(r, stages) && i < |stages| && OppositeKey(r, stages[i]).Some?
    ensures RunStages(c, w, r, spec, stages).1 == Done ==>
            Switched(r, stages[i], w, NextFault(Reached(c, w, r, spec, stages, i)) == NoFault,
                     RunStages(c, w, r, spec, stages).0.objs)
    decreases |stages|
  {
    if i == 0 {
      if RunStages(c, w, r, spec, stages).1 == Done {
        FirstStageSwitches(c, w, r, spec, stages);
      }
    } else {
      StageKeeps(c, w, r, spec, stages[0]);
      HeadIsSeparate(r, stages);
      var w1 := RunStage(c, w, r, spec, stages[0]).0;
      StageSwitches(c, w1, r, spec, stages[1..], i - 1);
      assert stages[1..][i - 1] == stages[i];
      assert Footprint(r, stages[0]) !! Footprint(r, stages[i]);
      assert OppositeKey(r, stages[i]).value in Footprint(r, stages[i]);
      assert w1.Lookup(OppositeKey(r, stages[i]).value) == w.Lookup(OppositeKey(r, stages[i]).value);
    }
  }

  ghost predicate ScopeSwitched(c: Config, w: World, r: Request, spec: Spec, objs: map<Key, Obj>) {
    var sawRole := NextFault(Reached(c, w, r, spec, Pipeline(spec), 1)) == NoFault;
    var sawBinding := NextFault(Reached(c, w, r, spec, Pipeline(spec), 5)) == NoFault;
    if spec.namespaceScoped then
      Switched(r, RoleStage, w, sawRole, objs) && Switched(r, RoleBindingStage, w, sawBinding, objs)
    else
      Switched(r, ClusterRoleStage, w, sawRole, objs) && Switched(r, ClusterRoleBindingStage, w, sawBinding, objs)
  }

  lemma StagedSwitches(c: Config, w: World, r: Request, rm: RolloutManager)
    requires Calm(w) && Staged(c, w, r, rm).1 == Done
    ensures ScopeSwitched(c, w, r, rm.spec, Staged(c, w, r, rm).0.objs)
  {
    PipelineIsDisjoint(r, rm.spec);
    ScopeStages(rm.spec);
    StageSwitches(c, w, r, rm.spec, Pipeline(rm.spec), 1);
    StageSwitches(c, w, r, rm.spec, Pipeline(rm.spec), 5);
    ScopeSwitchedBy(c, w, r, rm.spec, Pipeline(rm.spec), Staged(c, w, r, rm).0.objs);
  }

  lemma ScopeStages(spec: Spec)
    ensures Pipeline(spec)[1] == (if spec.namespaceScoped then RoleStage else ClusterRoleStage)
    ensures Pipeline(spec)[5] == (if spec.namespaceScoped then RoleBindingStage else ClusterRoleBindingStage)
  {
  }

  lemma ScopeSwitchedBy(c: Config, w: World, r: Request, spec: Spec, stages: seq<Stage>, objs: map<Key, Obj>)
    requires stages == Pipeline(spec) && |stages| == 11
    requires stages[1] == if spec.namespaceScoped then RoleStage else ClusterRoleStage
    requires stages[5] == if spec.namespaceScoped then RoleBindingStage else ClusterRoleBindingStage
    requires Switched(r, stages[1], w, NextFault(Reached(c, w, r, spec, stages, 1)) == NoFault, objs)
    requires Switched(r, stages[5], w, NextFault(Reached(c, w, r, spec, stages, 5)) == NoFault, objs)
    ensures ScopeSwitched(c, w, r, spec, objs)
  {
  }

  /** The world in which the stages begin: a cluster-scoped RolloutManager is let in only after the
      others were listed. */
  function PastGates(w: World, spec: Spec): World {
    if spec.namespaceScoped then w else Begin(w)
  }

  function StagesStart(w: World, spec: Spec): World {
    PastGates(AtGates(w), spec)
  }

  /** A successful reconcile of an admitted RolloutManager ran all its stages, from there. */
  lemma SuccessRanStages(c: Config, w: World, r: Request, rm: RolloutManager)
    requires Calm(w) && r in w.rms && w.rms[r] == rm && Verdict(c, w.rms, r).None?
    ensures var (v, res, o) := ReconcileManager(c, w, r, rm);
            var e := PastGates(w, rm.spec);
            Idle(w, e) &&
            (o == Done ==>
              Staged(c, e, r, rm).1 == Done && Calm(v) && v.objs == Staged(c, e, r, rm).0.objs && v.rms == w.rms)
  {
    CalmBegin(w);
    var e := PastGates(w, rm.spec);
    StagesKeep(c, e, r, rm.spec, Pipeline(rm.spec));
    CalmBegin(Staged(c, e, r, rm).0);
  }

  /** After a successful reconcile of an admitted RolloutManager, with no outsider but failing
      calls: its scope's role and binding exist, the binding names its namespace's ServiceAccount,
      and each object of the opposite scope is gone exactly unless it was there and the reconcile's
      own Get of it failed. */
  lemma ScopeIsExclusive(c: Config, w: World, r: Request)
    requires Calm(w) && r in w.rms && w.NamespaceIsLive(r.ns) && Verdict(c, w.rms, r).None?
    ensures var spec := w.rms[r].spec;
            Idle(w, StagesStart(w, spec)) &&
            (Reconcile(c, w, r).1 == Done ==>
             ScopeSwitched(c, StagesStart(w, spec), r, spec, Reconcile(c, w, r).0.objs))
  {
    ReachesManager(c, w, r);
    var u := AtGates(w);
    var (m, res, o) := ReconcileManager(c, u, r, w.rms[r]);
    SuccessRanStages(c, u, r, w.rms[r]);
    if Reconcile(c, w, r).1 == Done {
      StagedSwitches(c, StagesStart(w, w.rms[r].spec), r, w.rms[r]);
      WriteIsStatusOnly(m, r, w.rms[r], res, o);
    }
  }

  /** The role or binding of the opposite scope. */
  function OppositeRole(r: Request, spec: Spec): Key {
    if spec.namespaceScoped then CLUSTER_ROLE else KeyOf(r, RoleStage)
  }

  function OppositeBinding(r: Request, spec: Spec): Key {
    if spec.namespaceScoped then CLUSTER_ROLE_BINDING else KeyOf(r, RoleBindingStage)
  }

  /** An object of the opposite scope that is there is seen: its Get, at the start of the second
      and of the sixth stage, does not fail.  Any other call may. */
  predicate SeesOpposites(c: Config, w: World, r: Request, spec: Spec) {
    var e := StagesStart(w, spec);
    (OppositeRole(r, spec) in w.objs ==> NextFault(Reached(c, e, r, spec, Pipeline(spec), 1)) == NoFault) &&
    (OppositeBinding(r, spec) in w.objs ==> NextFault(Reached(c, e, r, spec, Pipeline(spec), 5)) == NoFault)
  }

  /** One scope's role and binding exist, and none of the other's. */
  predicate Exclusive(r: Request, spec: Spec, objs: map<Key, Obj>) {
    (CLUSTER_ROLE in objs <==> !spec.namespaceScoped) && (CLUSTER_ROLE_BINDING in objs <==> !spec.namespaceScoped) &&
    (KeyOf(r, RoleStage) in objs <==> spec.namespaceScoped) &&
    (KeyOf(r, RoleBindingStage) in objs <==> spec.namespaceScoped)
  }

  /** Whatever other calls fail, a successful reconcile leaves one scope only exactly if it saw
      what there was of the other. */
  lemma ExcludesExactly(c: Config, w: World, r: Request)
    requires Calm(w) && r in w.rms && w.NamespaceIsLive(r.ns) && Verdict(c, w.rms, r).None?
    ensures var (v, o) := Reconcile(c, w, r);
            var spec := w.rms[r].spec;
            o == Done ==> (Exclusive(r, spec, v.objs) <==> SeesOpposites(c, w, r, spec))
  {
    ScopeIsExclusive(c, w, r);
    SwitchedExcludes(c, StagesStart(w, w.rms[r].spec), r, w.rms[r].spec, Reconcile(c, w, r).0.objs);
  }

  lemma SwitchedExcludes(c: Config, e: World, r: Request, spec: Spec, objs: map<Key, Obj>)
    ensures ScopeSwitched(c, e, r, spec, objs) ==>
            var sawRole := NextFault(Reached(c, e, r, spec, Pipeline(spec), 1)) == NoFault;
            var sawBinding := NextFault(Reached(c, e, r, spec, Pipeline(spec), 5)) == NoFault;
            (Exclusive(r, spec, objs) <==>
             (OppositeRole(r, spec) in e.objs ==> sawRole) && (OppositeBinding(r, spec) in e.objs ==> sawBinding))
  {
    var sawRole := NextFault(Reached(c, e, r, spec, Pipeline(spec), 1)) == NoFault;
    var sawBinding := NextFault(Reached(c, e, r, spec, Pipeline(spec), 5)) == NoFault;
    if ScopeSwitched(c, e, r, spec, objs) {
      if spec.namespaceScoped {
        NamespacedExcludes(r, e, sawRole, sawBinding, objs);
      } else {
        ClusterExcludes(r, e, sawRole, sawBinding, objs);
      }
    }
  }

  lemma NamespacedExcludes(r: Request, e: World, sawRole: bool, sawBinding: bool, objs: map<Key, Obj>)
    requires Switched(r, RoleStage, e, sawRole, objs) && Switched(r, RoleBindingStage, e, sawBinding, objs)
    ensures KeyOf(r, RoleStage) in objs && KeyOf(r, RoleBindingStage) in objs
    ensures CLUSTER_ROLE !in objs <==> CLUSTER_ROLE !in e.objs || sawRole
    ensures CLUSTER_ROLE_BINDING !in objs <==> CLUSTER_ROLE_BINDING !in e.objs || sawBinding
  {
  }

  lemma ClusterExcludes(r: Request, e: World, sawRole: bool, sawBinding: bool, objs: map<Key, Obj>)
    requires Switched(r, ClusterRoleStage, e, sawRole, objs) &&
             Switched(r, ClusterRoleBindingStage, e, sawBinding, objs)
    ensures CLUSTER_ROLE in objs && CLUSTER_ROLE_BINDING in objs
    ensures KeyOf(r, RoleStage) !in objs <==> KeyOf(r, RoleStage) !in e.objs || sawRole
    ensures KeyOf(r, RoleBindingStage) !in objs <==> KeyOf(r, RoleBindingStage) !in e.objs || sawBinding
  {
  }

  /** With no failing call at all, the two scopes exclude each other after every such reconcile. */
  lemma QuietScopeIsExclusive(c: Config, w: World, r: Request)
    requires w.Quiet() && r in w.rms && w.NamespaceIsLive(r.ns) && Verdict(c, w.rms, r).None?
    ensures Reconcile(c, w, r).1 == Done ==> Exclusive(r, w.rms[r].spec, Reconcile(c, w, r).0.objs)
  {
    ManagerByVerdict(c, w, r);
    if Reconcile(c, w, r).1 == Done {
      StagedSettlesScope(c, w, r, w.rms[r]);
      var (m, res, o) := ReconcileManager(c, w, r, w.rms[r]);
      WriteIsStatusOnly(m, r, w.rms[r], res, o);
    }
  }

  lemma StagedSettlesScope(c: Config, w: World, r: Request, rm: RolloutManager)
    requires w.Quiet() && r in w.rms && w.rms[r] == rm && RunAdmitted(c, w, r, rm).2 == Done
    ensures var (v, res, o) := RunAdmitted(c, w, r, rm);
            Calm(v) && v.rms == w.rms && Exclusive(r, rm.spec, v.objs)
  {
    StagedSettles(c, w, r, rm);
    ScopeStages(rm.spec);
    SettledScope(c, r, rm.spec, Pipeline(rm.spec), Staged(c, w, r, rm).0.objs);
  }

  lemma SettledScope(c: Config, r: Request, spec: Spec, stages: seq<Stage>, objs: map<Key, Obj>)
    requires |stages| == 11 && AllSettled(c, r, spec, stages, objs)
    requires stages[1] == if spec.namespaceScoped then RoleStage else ClusterRoleStage
    requires stages[5] == if spec.namespaceScoped then RoleBindingStage else ClusterRoleBindingStage
    ensures Exclusive(r, spec, objs)
  {
    assert PlainSettled(c, r, spec, stages[1], objs) && PlainSettled(c, r, spec, stages[5], objs) by {
      assert StageSettled(c, r, spec, stages[1], objs) && StageSettled(c, r, spec, stages[5], objs);
    }
  }
}
