/** A reconcile is a fixpoint: with nobody interfering, the second run of the same reconcile
    changes nothing at all, whatever the first one found and however it ended. */
module Fixpoint {
  import opened GoTypes
  import opened RolloutManagers
  import opened Statuses
  import opened Cluster
  import opened Operator
  import opened Settling
  import opened Convergence
  import Deployments
  import Metadata

  // ----- One stage -----

  lemma StageLands(c: Config, r: Request, spec: Spec, s: Stage, w: World)
    requires w.Quiet()
    ensures Lands(c, r, spec, s, w, RunStage(c, w, r, spec, s).0, RunStage(c, w, r, spec, s).1)
  {
    match s
    case SecretStage => SecretLands(c, r, spec, w);
    case ConfigMapStage => ConfigMapLands(c, r, spec, w);
    case DeploymentStage =>
      if Deployments.Desired(c, spec).Ok? {
        DeploymentConverges(c, w, r, spec, Deployments.Desired(c, spec).value);
      }
    case NetworkPolicyStage => PolicyLands(c, r, spec, w);
    case _ => PlainLands(c, r, spec, s, w);
  }

  /** A settled stage changes nothing, and a blocked one fails the same way again. */
  lemma StageRepeats(c: Config, r: Request, spec: Spec, s: Stage, w: World)
    requires w.Quiet()
    ensures StageSettled(c, r, spec, s, w.objs) ==> RunStage(c, w, r, spec, s) == (w, Done)
    ensures Blocker(c, r, spec, s, w.objs).Some? ==>
            RunStage(c, w, r, spec, s) == (w, Failed(Blocker(c, r, spec, s, w.objs).value))
  {
    match s
    case SecretStage => SecretLands(c, r, spec, w);
    case ConfigMapStage => ConfigMapIsIdle(c, r, spec, w);
    case DeploymentStage => DeploymentRepeats(c, r, spec, w);
    case NetworkPolicyStage => PolicyLands(c, r, spec, w);
    case _ => PlainLands(c, r, spec, s, w);
  }

  lemma DeploymentRepeats(c: Config, r: Request, spec: Spec, w: World)
    requires w.Quiet()
    ensures WorkloadSettled(c, r, spec, w.objs) ==> RunDeployment(c, w, r, spec) == (w, Done)
    ensures Blocker(c, r, spec, DeploymentStage, w.objs).Some? ==>
            RunDeployment(c, w, r, spec) == (w, Failed(Blocker(c, r, spec, DeploymentStage, w.objs).value))
  {
    DeploymentIsIdle(c, w, r, spec);
    if Deployments.Desired(c, spec).Ok? {
      DeploymentConverges(c, w, r, spec, Deployments.Desired(c, spec).value);
    }
  }

  /** Being settled depends on the stage's own keys only. */
  lemma SettledIsLocal(c: Config, r: Request, spec: Spec, s: Stage, a: map<Key, Obj>, b: map<Key, Obj>)
    requires StageSettled(c, r, spec, s, a)
    requires forall k | k in Footprint(r, s) :: (k in a <==> k in b) && (k in a ==> a[k] == b[k])
    ensures StageSettled(c, r, spec, s, b)
  {
    assert KeyOf(r, s) in Footprint(r, s);
  }

  // ----- The stages in order -----

  function Footprints(r: Request, stages: seq<Stage>): set<Key> {
    if stages == [] then {} else Footprint(r, stages[0]) + Footprints(r, stages[1..])
  }

  ghost predicate Disjoint(r: Request, stages: seq<Stage>) {
    forall i, j | 0 <= i < j < |stages| :: Footprint(r, stages[i]) !! Footprint(r, stages[j])
  }

  lemma {:induction false} InFootprints(r: Request, stages: seq<Stage>, k: Key) returns (i: nat)
    requires k in Footprints(r, stages)
    ensures i < |stages| && k in Footprint(r, stages[i])
  {
    if k in Footprint(r, stages[0]) {
      i := 0;
    } else {
      var j := InFootprints(r, stages[1..], k);
      i := j + 1;
    }
  }

  lemma HeadIsSeparate(r: Request, stages: seq<Stage>)
    requires stages != [] && Disjoint(r, stages)
    ensures Footprint(r, stages[0]) !! Footprints(r, stages[1..])
    ensures Disjoint(r, stages[1..])
  {
    forall k | k in Footprints(r, stages[1..]) ensures k !in Footprint(r, stages[0]) {
      var i := InFootprints(r, stages[1..], k);
      assert Footprint(r, stages[0]) !! Footprint(r, stages[i + 1]);
    }
  }

  /** A stage's place in the pipeline. */
  function Rank(s: Stage): nat {
    match s
    case ServiceAccountStage => 0
    case RoleStage => 1
    case ClusterRoleStage => 1
    case AggregateStage(Admin) => 2
    case AggregateStage(Edit) => 3
    case AggregateStage(View) => 4
    case RoleBindingStage => 5
    case ClusterRoleBindingStage => 5
    case SecretStage => 6
    case ConfigMapStage => 7
    case DeploymentStage => 8
    case ServiceStage => 9
    case NetworkPolicyStage => 10
  }

  lemma AggregatesAreNotTheClusterRole(a: Aggregation)
    ensures AggregateName(a) != Metadata.RESOURCE_NAME
    ensures forall b: Aggregation :: a != b ==> AggregateName(a) != AggregateName(b)
  {
    assert |AggregateName(a)| > |Metadata.RESOURCE_NAME|;
    forall b: Aggregation | a != b ensures AggregateName(a) != AggregateName(b) {
      assert AggregateName(a)[|Metadata.RESOURCE_NAME| + 14] != AggregateName(b)[|Metadata.RESOURCE_NAME| + 14];
    }
  }

  /** Stages at different places of a pipeline share no key. */
  lemma StagesShareNothing(r: Request, s: Stage, t: Stage)
    requires Rank(s) != Rank(t)
    ensures Footprint(r, s) !! Footprint(r, t)
  {
    if s.AggregateStage? {
      AggregatesAreNotTheClusterRole(s.a);
    }
    if t.AggregateStage? {
      AggregatesAreNotTheClusterRole(t.a);
    }
  }

  lemma PipelineIsDisjoint(r: Request, spec: Spec)
    ensures Disjoint(r, Pipeline(spec))
  {
    var stages := Pipeline(spec);
    forall i | 0 <= i < |stages| ensures Rank(stages[i]) == i {
    }
    forall i, j | 0 <= i < j < |stages| ensures Footprint(r, stages[i]) !! Footprint(r, stages[j]) {
      StagesShareNothing(r, stages[i], stages[j]);
    }
  }

  lemma {:induction false} StagesWithin(c: Config, r: Request, spec: Spec, stages: seq<Stage>, w: World)
    requires w.Quiet()
    ensures Within(w, RunStages(c, w, r, spec, stages).0, Footprints(r, stages))
    decreases |stages|
  {
    if stages != [] {
      StageLands(c, r, spec, stages[0], w);
      var (w1, o) := RunStage(c, w, r, spec, stages[0]);
      if o == Done {
        StagesWithin(c, r, spec, stages[1..], w1);
      }
    }
  }

  predicate AllSettled(c: Config, r: Request, spec: Spec, stages: seq<Stage>, objs: map<Key, Obj>) {
    forall s | s in stages :: StageSettled(c, r, spec, s, objs)
  }

  /** Run the stages quietly: if they do not panic, running them again on the objects they
      left ends the same way and changes nothing. */
  lemma {:induction false} StagesFixpoint(c: Config, r: Request, spec: Spec, stages: seq<Stage>, w: World, u: World)
    requires w.Quiet() && u.Quiet() && Disjoint(r, stages)
    requires u.objs == RunStages(c, w, r, spec, stages).0.objs && RunStages(c, w, r, spec, stages).1 != Panicked
    ensures RunStages(c, u, r, spec, stages) == (u, RunStages(c, w, r, spec, stages).1)
    ensures RunStages(c, w, r, spec, stages).1 == Done ==> AllSettled(c, r, spec, stages, u.objs)
    decreases |stages|
  {
    if stages != [] {
      var s, rest := stages[0], stages[1..];
      StageLands(c, r, spec, s, w);
      StageRepeats(c, r, spec, s, u);
      var (w1, o) := RunStage(c, w, r, spec, s);
      if o == Done {
        StagesWithin(c, r, spec, rest, w1);
        SettledIsLocal(c, r, spec, s, w1.objs, u.objs) by {
          HeadIsSeparate(r, stages);
          forall k | k in Footprint(r, s) ensures w1.Lookup(k) == u.Lookup(k) {
          }
        }
        StagesFixpoint(c, r, spec, rest, w1, u);
      }
    }
  }

  // ----- Cleanup -----

  lemma {:induction false} RemoveAllLands(w: World, keys: seq<Key>)
    requires w.Quiet()
    ensures RemoveAll(w, keys).1 == Done
    ensures Within(w, RemoveAll(w, keys).0, set k | k in keys)
    ensures forall k | k in keys :: k !in RemoveAll(w, keys).0.objs
    ensures (forall k | k in keys :: k !in w.objs) ==> RemoveAll(w, keys).0 == w
    decreases |keys|
  {
    if keys != [] {
      var w1 := Remove(w, keys[0]).0;
      RemoveAllLands(w1, keys[1..]);
      var v := RemoveAll(w1, keys[1..]).0;
      assert keys[0] !in keys[1..] ==> v.Lookup(keys[0]) == w1.Lookup(keys[0]);
    }
  }

  // ----- The whole reconcile -----

  /** A status write leaves a status in which the same result is settled, and touches nothing else. */
  lemma WriteResultLands(w: World, r: Request, rm: RolloutManager, res: StatusResult, o: Outcome)
    requires w.Quiet() && r in w.rms && w.rms[r] == rm && o != Panicked
    ensures var (v, p) := WriteResult(w, r, rm, res, o);
            p == o && r in v.rms && v.rms[r].spec == rm.spec && Follows(v.rms[r].status, rm.status, res) &&
            v == w.(rms := w.rms[r := v.rms[r]], queue := v.queue)
    ensures StatusSettled(rm.status, res) ==> WriteResult(w, r, rm, res, o) == (w, o)
  {
    SettledStatusStays(rm.status, res, w.now);
    assert w.rms[r := rm] == w.rms;
  }

  lemma PhaseSettles(s: Status, after: Status, phase: Phase)
    requires Follows(after, s, PhaseResult(s, phase))
    ensures StatusSettled(after, PhaseResult(after, phase))
  {
  }

  /** What the second run computes, on the world the first one left. */
  lemma ManagerFixpoint(c: Config, w: World, r: Request, rm: RolloutManager, u: World, after: RolloutManager)
    requires w.Quiet() && u.Quiet() && r in w.rms && w.rms[r] == rm && after.spec == rm.spec
    requires u.objs == ReconcileManager(c, w, r, rm).0.objs && u.rms == w.rms[r := after]
    requires ReconcileManager(c, w, r, rm).2 != Panicked
    requires Follows(after.status, rm.status, ReconcileManager(c, w, r, rm).1)
    ensures ReconcileManager(c, u, r, after).0 == u
    ensures ReconcileManager(c, u, r, after).2 == ReconcileManager(c, w, r, rm).2
    ensures StatusSettled(after.status, ReconcileManager(c, u, r, after).1)
  {
    OthersLookTheSame(w.rms, r, after);
    if ScopeProblem(c, r, rm.spec).None? && (rm.spec.namespaceScoped || !OtherClusterScoped(w.rms, r)) {
      AdmittedFixpoint(c, w, r, rm, u, after);
    }
  }

  lemma AdmittedFixpoint(c: Config, w: World, r: Request, rm: RolloutManager, u: World, after: RolloutManager)
    requires w.Quiet() && u.Quiet() && after.spec == rm.spec
    requires u.objs == RunAdmitted(c, w, r, rm).0.objs && RunAdmitted(c, w, r, rm).2 != Panicked
    requires Follows(after.status, rm.status, RunAdmitted(c, w, r, rm).1)
    ensures RunAdmitted(c, u, r, after).0 == u
    ensures RunAdmitted(c, u, r, after).2 == RunAdmitted(c, w, r, rm).2
    ensures StatusSettled(after.status, RunAdmitted(c, u, r, after).1)
  {
    PipelineIsDisjoint(r, rm.spec);
    StagesWithin(c, r, rm.spec, Pipeline(rm.spec), w);
    StagesFixpoint(c, r, rm.spec, Pipeline(rm.spec), w, u);
    var (w1, o) := RunStages(c, w, r, rm.spec, Pipeline(rm.spec));
    if o == Done {
      var k := KeyOf(r, DeploymentStage);
      assert u.Lookup(k) == w1.Lookup(k);
      var phase := PhaseOf(if k in u.objs then Some(AsDeployment(u.objs[k])) else None);
      PhaseSettles(rm.status, after.status, phase);
    }
  }

  lemma OthersLookTheSame(rms: map<Request, RolloutManager>, r: Request, after: RolloutManager)
    ensures OtherClusterScoped(rms[r := after], r) <==> OtherClusterScoped(rms, r)
  {
    if OtherClusterScoped(rms, r) {
      var q :| q in rms && q != r && !rms[q].spec.namespaceScoped;
      assert q in rms[r := after];
    }
  }

  lemma AdmittedWithin(c: Config, w: World, r: Request, rm: RolloutManager)
    requires w.Quiet()
    ensures Within(w, RunAdmitted(c, w, r, rm).0, Footprints(r, Pipeline(rm.spec)))
  {
    StagesWithin(c, r, rm.spec, Pipeline(rm.spec), w);
  }

  lemma ManagerWithin(c: Config, w: World, r: Request, rm: RolloutManager)
    requires w.Quiet()
    ensures Within(w, ReconcileManager(c, w, r, rm).0, Footprints(r, Pipeline(rm.spec)))
  {
    AdmittedWithin(c, w, r, rm);
  }

  /** Reconciling again, at any later time, changes neither objects nor pods nor any status
      nor the queue, and ends as the first run did; only a panic is excepted. */
  lemma ReconcileIsAFixpoint(c: Config, w: World, r: Request, later: nat)
    requires w.Quiet() && Reconcile(c, w, r).1 != Panicked
    ensures var (v, o) := Reconcile(c, w, r);
            Reconcile(c, v.(now := later), r) == (v.(now := later), o)
  {
    var (v, o) := Reconcile(c, w, r);
    var u := v.(now := later);
    if r.ns !in w.namespaces || (!w.namespaces[r.ns] && r !in w.rms) {
      RemoveAllLands(w, CLUSTER_SCOPED);
      RemoveAllLands(u, CLUSTER_SCOPED);
    } else if !w.namespaces[r.ns] {
      var rm := w.rms[r];
      var (w1, res, p) := ReconcileManager(c, w, r, rm);
      ManagerWithin(c, w, r, rm);
      WriteResultLands(w1, r, rm, res, p);
      var after := v.rms[r];
      ManagerFixpoint(c, w, r, rm, u, after);
      var (u1, again, q) := ReconcileManager(c, u, r, after);
      WriteResultLands(u1, r, after, again, q);
    }
  }
}
