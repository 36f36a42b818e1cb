/** Exactly when a reconcile is a fixpoint: always, but for a panic while pods are restarted. */
module Repeats {
  import opened GoTypes
  import opened RolloutManagers
  import opened Statuses
  import opened Cluster
  import opened Operator
  import opened Settling
  import opened Convergence
  import opened Fixpoint
  import opened Progress
  import Deployments
  import Metadata

  /** The live ConfigMap has no data at all: writing into it panics, again and again. */
  predicate Wedged(c: Config, r: Request, spec: Spec, objs: map<Key, Obj>) {
    var live := LookIn(objs, KeyOf(r, ConfigMapStage));
    PluginProblem(c, spec).None? && live.Some? && DataProblem(DataOf(live.value)).None? && DataOf(live.value).NilData?
  }

  /** The live ConfigMap is due for a rewrite, and the live Deployment has no selector by which
      to find the pods to restart. */
  predicate RestartPanics(c: Config, r: Request, spec: Spec, objs: map<Key, Obj>) {
    PluginProblem(c, spec).None? && DataWorks(r, objs) && !RestartWorks(c, r, spec, objs)
  }

  lemma RestartWithoutSelector(c: Config, r: Request, spec: Spec, w: World, live: Obj)
    requires w.Quiet() && w.Lookup(KeyOf(r, ConfigMapStage)) == Some(live) && RestartPanics(c, r, spec, w.objs)
    ensures RepairConfig(c, w, r, spec, live).1 == Panicked
  {
    var fixed := RepairedConfig(live, c, spec);
    var k := KeyOf(r, DeploymentStage);
    var w1 := SetObject(w, KeyOf(r, ConfigMapStage), Some(Stored(fixed)), true);
    assert w1.Lookup(k) == w.Lookup(k);
  }

  lemma ConfigMapPanics(c: Config, r: Request, spec: Spec, w: World)
    requires w.Quiet()
    ensures RunConfigMap(c, w, r, spec).1 == Panicked
            <==> Wedged(c, r, spec, w.objs) || RestartPanics(c, r, spec, w.objs)
    ensures Wedged(c, r, spec, w.objs) ==> RunConfigMap(c, w, r, spec).0 == w
    ensures RestartPanics(c, r, spec, w.objs) ==> ConfigSettled(c, r, spec, RunConfigMap(c, w, r, spec).0.objs)
  {
    var k := KeyOf(r, ConfigMapStage);
    if PluginProblem(c, spec).None? && k in w.objs {
      if DataWorks(r, w.objs) {
        RepairConfigAdvances(c, r, spec, w, w.objs[k]);
        if RestartPanics(c, r, spec, w.objs) {
          RestartWithoutSelector(c, r, spec, w, w.objs[k]);
        }
      }
    }
  }

  lemma NoOtherPanics(c: Config, r: Request, spec: Spec, s: Stage, w: World)
    requires w.Quiet() && !s.ConfigMapStage?
    ensures RunStage(c, w, r, spec, s).1 != Panicked
  {
    match s
    case DeploymentStage =>
      if Deployments.Desired(c, spec).Ok? {
        DeploymentConverges(c, w, r, spec, Deployments.Desired(c, spec).value);
      }
    case _ => OtherStageSucceeds(c, r, spec, s, w);
  }

  lemma PanicsAreLocal(c: Config, r: Request, spec: Spec, s: Stage, w: World, v: World)
    requires Within(w, v, Footprint(r, s)) && !s.ConfigMapStage? && !s.DeploymentStage?
    ensures Wedged(c, r, spec, v.objs) <==> Wedged(c, r, spec, w.objs)
    ensures RestartPanics(c, r, spec, v.objs) <==> RestartPanics(c, r, spec, w.objs)
  {
    StagesShareNothing(r, s, ConfigMapStage);
    StagesShareNothing(r, s, DeploymentStage);
    assert KeyOf(r, ConfigMapStage) in Footprint(r, ConfigMapStage);
    assert KeyOf(r, DeploymentStage) in Footprint(r, DeploymentStage);
    WorksIsLocal(c, r, spec, w, v);
    assert LookIn(w.objs, KeyOf(r, ConfigMapStage)) == w.Lookup(KeyOf(r, ConfigMapStage));
    assert LookIn(v.objs, KeyOf(r, ConfigMapStage)) == v.Lookup(KeyOf(r, ConfigMapStage));
  }

  lemma {:induction false} NoPanicWithoutConfigMap(c: Config, r: Request, spec: Spec, stages: seq<Stage>, w: World)
    requires w.Quiet() && ConfigMapStage !in stages
    ensures RunStages(c, w, r, spec, stages).1 != Panicked
    decreases |stages|
  {
    if stages != [] {
      NoOtherPanics(c, r, spec, stages[0], w);
      StageLands(c, r, spec, stages[0], w);
      NoPanicWithoutConfigMap(c, r, spec, stages[1..], RunStage(c, w, r, spec, stages[0]).0);
    }
  }

  /** Stages in which ConfigMap comes once, and before Deployment. */
  ghost predicate Ordered(stages: seq<Stage>, i: nat) {
    i < |stages| && stages[i] == ConfigMapStage && ConfigMapStage !in stages[i + 1..] &&
    forall j | 0 <= j < i :: !stages[j].ConfigMapStage? && !stages[j].DeploymentStage?
  }

  lemma OrderedTail(stages: seq<Stage>, i: nat)
    requires Ordered(stages, i) && i > 0
    ensures Ordered(stages[1..], i - 1)
  {
    assert stages[1..][i - 1 + 1..] == stages[i + 1..];
  }

  lemma PipelineIsOrdered(spec: Spec)
    ensures Ordered(Pipeline(spec), 7)
  {
    assert Pipeline(spec)[8..] == [DeploymentStage, ServiceStage, NetworkPolicyStage];
  }

  /** Which panic the stages end in, if any, can be told from the objects they start from. */
  lemma {:induction false} StagesPanic(c: Config, r: Request, spec: Spec, stages: seq<Stage>, i: nat, w: World)
    requires w.Quiet() && Disjoint(r, stages) && Ordered(stages, i)
    ensures RunStages(c, w, r, spec, stages).1 == Panicked
            <==> Wedged(c, r, spec, w.objs) || RestartPanics(c, r, spec, w.objs)
    ensures Wedged(c, r, spec, w.objs) ==> Wedged(c, r, spec, RunStages(c, w, r, spec, stages).0.objs)
    ensures RestartPanics(c, r, spec, w.objs) ==> ConfigSettled(c, r, spec, RunStages(c, w, r, spec, stages).0.objs)
    decreases |stages|
  {
    var s, rest := stages[0], stages[1..];
    StageLands(c, r, spec, s, w);
    var (w1, o) := RunStage(c, w, r, spec, s);
    if i == 0 {
      ConfigMapPanics(c, r, spec, w);
      if o == Done {
        NoPanicWithoutConfigMap(c, r, spec, rest, w1);
      }
    } else {
      OtherStageSucceeds(c, r, spec, s, w);
      PanicsAreLocal(c, r, spec, s, w, w1);
      HeadIsSeparate(r, stages);
      OrderedTail(stages, i);
      StagesPanic(c, r, spec, rest, i - 1, w1);
    }
  }

  /** A run that is wedged is wedged again, and changes nothing more. */
  lemma {:induction false} WedgedRepeats(c: Config, r: Request, spec: Spec, stages: seq<Stage>, w: World, u: World)
    requires w.Quiet() && u.Quiet() && Disjoint(r, stages) && Wedged(c, r, spec, u.objs)
    requires u.objs == RunStages(c, w, r, spec, stages).0.objs && RunStages(c, w, r, spec, stages).1 == Panicked
    ensures RunStages(c, u, r, spec, stages) == (u, Panicked)
    decreases |stages|
  {
    if stages != [] {
      var s, rest := stages[0], stages[1..];
      StageLands(c, r, spec, s, w);
      StageRepeats(c, r, spec, s, u);
      var (w1, o) := RunStage(c, w, r, spec, s);
      if o == Done {
        StagesWithin(c, r, spec, rest, w1);
        SettledIsLocal(c, r, spec, s, w1.objs, u.objs) by {
          HeadIsSeparate(r, stages);
          forall k | k in Footprint(r, s) ensures w1.Lookup(k) == u.Lookup(k) {
          }
        }
        WedgedRepeats(c, r, spec, rest, w1, u);
      } else {
        if s != ConfigMapStage {
          NoOtherPanics(c, r, spec, s, w);
        } else {
          ConfigMapPanics(c, r, spec, u);
        }
      }
    }
  }

  // ----- The whole reconcile -----

  lemma StagedPanics(c: Config, w: World, r: Request, rm: RolloutManager)
    requires w.Quiet()
    ensures Staged(c, w, r, rm).1 == Panicked <==> Wedged(c, r, rm.spec, w.objs) || RestartPanics(c, r, rm.spec, w.objs)
    ensures Wedged(c, r, rm.spec, w.objs) ==> Wedged(c, r, rm.spec, Staged(c, w, r, rm).0.objs)
    ensures RestartPanics(c, r, rm.spec, w.objs) ==> ConfigSettled(c, r, rm.spec, Staged(c, w, r, rm).0.objs)
  {
    PipelineIsDisjoint(r, rm.spec);
    PipelineIsOrdered(rm.spec);
    StagesPanic(c, r, rm.spec, Pipeline(rm.spec), 7, w);
  }

  lemma PanickedReconcile(c: Config, w: World, r: Request)
    requires w.Quiet() && r in w.rms && w.NamespaceIsLive(r.ns) && Verdict(c, w.rms, r).None?
    ensures Reconcile(c, w, r).1 == Panicked <==> Staged(c, w, r, w.rms[r]).1 == Panicked
    ensures Reconcile(c, w, r).1 == Panicked ==> Reconcile(c, w, r) == Staged(c, w, r, w.rms[r])
  {
    ManagerByVerdict(c, w, r);
    AdmittedResult(c, w, r, w.rms[r]);
    var (w1, res, o) := ReconcileManager(c, w, r, w.rms[r]);
    if o != Panicked {
      WriteResultLands(w1, r, w.rms[r], res, o);
    }
  }

  lemma OnlyAdmittedPanic(c: Config, w: World, r: Request)
    requires w.Quiet() && !(r in w.rms && w.NamespaceIsLive(r.ns) && Verdict(c, w.rms, r).None?)
    ensures Reconcile(c, w, r).1 != Panicked
  {
    if r.ns in w.namespaces && !w.namespaces[r.ns] && r in w.rms {
      RejectionSettles(c, w, r);
    } else {
      RemoveAllLands(w, CLUSTER_SCOPED);
    }
  }

  /** The one situation in which reconciling twice is not reconciling once. */
  predicate PanicsOnce(c: Config, w: World, r: Request) {
    r in w.rms && w.NamespaceIsLive(r.ns) && Verdict(c, w.rms, r).None? && RestartPanics(c, r, w.rms[r].spec, w.objs)
  }

  /** With such a Deployment stored, and a ConfigMap that is due for a rewrite, it arises. */
  lemma PanicsOnceHappens(c: Config, w: World, r: Request) returns (u: World)
    requires w.Quiet() && r in w.rms && w.NamespaceIsLive(r.ns) && Verdict(c, w.rms, r).None?
    requires PluginProblem(c, w.rms[r].spec).None?
    ensures u == w.(objs := u.objs) && PanicsOnce(c, u, r)
  {
    var config := Obj(Metadata.BARE_META, ConfigBody(Data(map[])));
    var deployment := Obj(Metadata.BARE_META, DeploymentBody(Deployments.EMPTY_SPEC, 0));
    u := w.(objs := w.objs[KeyOf(r, ConfigMapStage) := config][KeyOf(r, DeploymentStage) := deployment]);
    assert LookIn(u.objs, KeyOf(r, ConfigMapStage)) == Some(config);
    assert LookIn(u.objs, KeyOf(r, DeploymentStage)) == Some(deployment);
  }

  /** It can arise only where a Deployment without a selector is stored. */
  lemma PanicsOnceNeedsNoSelector(c: Config, w: World, r: Request)
    requires PanicsOnce(c, w, r)
    ensures KeyOf(r, DeploymentStage) in w.objs && AsDeployment(w.objs[KeyOf(r, DeploymentStage)]).spec.selector.None?
  {
  }

  /** After a panic, from the same statuses at a later time. */
  lemma AfterPanic(c: Config, w: World, r: Request, u: World)
    requires w.Quiet() && r in w.rms && w.NamespaceIsLive(r.ns) && Verdict(c, w.rms, r).None?
    requires Reconcile(c, w, r).1 == Panicked && u == Reconcile(c, w, r).0.(now := u.now)
    ensures Wedged(c, r, w.rms[r].spec, w.objs) ==> Reconcile(c, u, r) == (u, Panicked)
    ensures RestartPanics(c, r, w.rms[r].spec, w.objs) ==> Reconcile(c, u, r).1 != Panicked
  {
    var rm := w.rms[r];
    PanickedReconcile(c, w, r);
    StagedPanics(c, w, r, rm);
    StagesWithin(c, r, rm.spec, Pipeline(rm.spec), w);
    PanickedReconcile(c, u, r);
    StagedPanics(c, u, r, rm);
    if Wedged(c, r, rm.spec, w.objs) {
      PipelineIsDisjoint(r, rm.spec);
      WedgedRepeats(c, r, rm.spec, Pipeline(rm.spec), w, u);
    } else {
      SettledDataWorks(c, r, rm.spec, u.objs);
    }
  }

  /** Reconciling again, at any later time, changes neither objects nor pods nor any status nor
      the queue, and ends as the first run did, exactly unless the first run panics once. */
  lemma FixpointExactly(c: Config, w: World, r: Request, later: nat)
    requires w.Quiet()
    ensures var (v, o) := Reconcile(c, w, r);
            Reconcile(c, v.(now := later), r) == (v.(now := later), o) <==> !PanicsOnce(c, w, r)
  {
    if r in w.rms && w.NamespaceIsLive(r.ns) && Verdict(c, w.rms, r).None? {
      PanickedReconcile(c, w, r);
      StagedPanics(c, w, r, w.rms[r]);
      if Reconcile(c, w, r).1 == Panicked {
        AfterPanic(c, w, r, Reconcile(c, w, r).0.(now := later));
      } else {
        ReconcileIsAFixpoint(c, w, r, later);
      }
    } else {
      OnlyAdmittedPanic(c, w, r);
      ReconcileIsAFixpoint(c, w, r, later);
    }
  }
}
