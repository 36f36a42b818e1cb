/** Commutation: in namespace-scoped mode, reconciles in two namespaces have the same effect
    in either order, exactly when what they expect of the shared aggregate roles agrees. */
module Commutation {
  import opened GoTypes
  import opened RolloutManagers
  import opened Metadata
  import opened Statuses
  import opened Cluster
  import opened Operator
  import opened Settling
  import opened Fixpoint
  import opened Progress
  import opened Patches
  import opened Wakeups

  // ----- Expectations of the aggregate roles -----

  ghost predicate MapsAgree(a: map<string, string>, b: map<string, string>) {
    forall k | k in a && k in b :: a[k] == b[k]
  }

  ghost predicate MetaAgrees(a: Meta, b: Meta) {
    MapsAgree(a.labels.Content(), b.labels.Content()) && MapsAgree(a.annotations.Content(), b.annotations.Content())
  }

  ghost predicate SpecsAgree(a: Spec, b: Spec) {
    forall x: Aggregation :: MetaAgrees(ExpectedAggregateMeta(x, a), ExpectedAggregateMeta(x, b))
  }

  /** Its metadata content is the live one overridden by the expected one. */
  lemma DrivenContent(live: Obj, expected: Obj, spec: Spec)
    ensures var after := Driven(live, expected, spec);
            after.meta.labels.Content() == live.meta.labels.Content() + expected.meta.labels.Content() &&
            after.meta.annotations.Content() == live.meta.annotations.Content() + expected.meta.annotations.Content() &&
            after.meta.owner == live.meta.owner && after.meta.rest == live.meta.rest
    ensures expected.body.RulesBody? ==> Driven(live, expected, spec).body == expected.body
  {
    MergeContent(live.meta, expected.meta, spec);
  }

  lemma StoredTwice(m: Meta)
    ensures StoredMeta(StoredMeta(m)) == StoredMeta(m)
  {
  }

  /** Two passes in either order give the same object when they agree on shared keys. */
  lemma PassesCommute(live: Obj, x: Obj, xSpec: Spec, y: Obj, ySpec: Spec)
    requires MetaAgrees(x.meta, y.meta) && x.body.RulesBody? && y.body == x.body
    ensures Driven(Driven(live, x, xSpec), y, ySpec) == Driven(Driven(live, y, ySpec), x, xSpec)
  {
    DrivenContent(live, x, xSpec);
    DrivenContent(live, y, ySpec);
    DrivenContent(Driven(live, x, xSpec), y, ySpec);
    DrivenContent(Driven(live, y, ySpec), x, xSpec);
    OverridesCommute(live.meta.labels.Content(), x.meta.labels.Content(), y.meta.labels.Content());
    OverridesCommute(live.meta.annotations.Content(), x.meta.annotations.Content(), y.meta.annotations.Content());
    var xy, yx := Driven(Driven(live, x, xSpec), y, ySpec), Driven(Driven(live, y, ySpec), x, xSpec);
    if NeedsUpdate(live, x, xSpec) || NeedsUpdate(live, y, ySpec) {
      DrivenIsStored(Driven(live, x, xSpec), y, ySpec, live, x, xSpec);
      DrivenIsStored(Driven(live, y, ySpec), x, xSpec, live, y, ySpec);
      StoredByContent(xy.meta, yx.meta);
    }
  }

  lemma OverridesCommute(live: map<string, string>, x: map<string, string>, y: map<string, string>)
    requires MapsAgree(x, y)
    ensures (live + x) + y == (live + y) + x
  {
  }

  lemma DrivenIsStored(once: Obj, y: Obj, ySpec: Spec, live: Obj, x: Obj, xSpec: Spec)
    requires once == Driven(live, x, xSpec) && (NeedsUpdate(live, x, xSpec) || NeedsUpdate(live, y, ySpec))
    ensures StoredMeta(Driven(once, y, ySpec).meta) == Driven(once, y, ySpec).meta
  {
    if NeedsUpdate(once, y, ySpec) {
      StoredTwice(Repaired(once, y, ySpec).meta);
    } else {
      StoredTwice(Repaired(live, x, xSpec).meta);
    }
  }

  /** Creating an object is one pass over a bare one. */
  function Bared(e: Obj): Obj {
    Obj(BARE_META.(owner := e.meta.owner, rest := e.meta.rest), e.body)
  }

  lemma CreationIsPass(e: Obj, spec: Spec)
    requires e.body.RulesBody?
    ensures Stored(e) == Driven(Bared(e), e, spec)
  {
    DrivenContent(Bared(e), e, spec);
    assert map[] + e.meta.labels.Content() == e.meta.labels.Content();
    assert map[] + e.meta.annotations.Content() == e.meta.annotations.Content();
    StoredTwice(Repaired(Bared(e), e, spec).meta);
    StoredByContent(Driven(Bared(e), e, spec).meta, e.meta);
  }

  function Before(w: World, k: Key, e: Obj): Obj {
    if k in w.objs then w.objs[k] else Bared(e)
  }

  lemma AggregateWakesNobody(w: World, a: Aggregation, after: Obj)
    ensures SetObject(w, AggregateKey(a), Some(after), true) == w.(objs := w.objs[AggregateKey(a) := after])
  {
    AggregatesAreNotTheClusterRole(a);
    assert w.queue + {} == w.queue;
  }

  /** One quiet pass over an aggregate role. */
  lemma EnsureAggregate(w: World, a: Aggregation, e: Obj, spec: Spec)
    requires w.Quiet() && e.body.RulesBody?
    ensures var k := AggregateKey(a);
            Ensure(w, k, e, spec) == (w.(objs := w.objs[k := Driven(Before(w, k, e), e, spec)]), Done)
  {
    var k := AggregateKey(a);
    CreationIsPass(e, spec);
    AggregateWakesNobody(w, a, Driven(Before(w, k, e), e, spec));
    if k in w.objs {
      RewriteIsIdle(w, k, true);
    }
  }

  lemma AggregatesCommute(w: World, a: Aggregation, x: Obj, xSpec: Spec, y: Obj, ySpec: Spec)
    requires w.Quiet() && MetaAgrees(x.meta, y.meta) && x.body.RulesBody? && Bared(x) == Bared(y)
    ensures var k := AggregateKey(a);
            Ensure(Ensure(w, k, x, xSpec).0, k, y, ySpec) == Ensure(Ensure(w, k, y, ySpec).0, k, x, xSpec)
  {
    var k, before := AggregateKey(a), Before(w, AggregateKey(a), x);
    EnsureAggregate(w, a, x, xSpec);
    EnsureAggregate(w, a, y, ySpec);
    var f, g := Ensure(w, k, x, xSpec).0, Ensure(w, k, y, ySpec).0;
    EnsureAggregate(f, a, y, ySpec);
    EnsureAggregate(g, a, x, xSpec);
    PassesCommute(before, x, xSpec, y, ySpec);
    OverwriteTwice(w.objs, k, f.objs[k], Driven(f.objs[k], y, ySpec));
    OverwriteTwice(w.objs, k, g.objs[k], Driven(g.objs[k], x, xSpec));
  }

  lemma OverwriteTwice<K, V>(m: map<K, V>, k: K, first: V, second: V)
    ensures m[k := first][k := second] == m[k := second]
  {
  }

  // ----- Two stages -----

  /** Doing the one and the other in either order: the same world, the same outcomes. */
  ghost predicate Diamond(f: (World, Outcome), g: (World, Outcome), gAfterF: (World, Outcome),
                          fAfterG: (World, Outcome)) {
    gAfterF.0 == fAfterG.0 && gAfterF.1 == g.1 && fAfterG.1 == f.1
  }

  lemma AlikeElsewhere(ns: string, keys: set<Key>, w: World, p: Patch, other: string)
    requires w.Quiet() && p.objs.Keys !! keys && ns != other && forall g | g in p.gone :: g.0 == other
    ensures Alike(ns, keys, w, Apply(w, p))
  {
    KeptInNamespace(w.pods, p.gone, ns);
  }

  /** Stages that share no key commute. */
  lemma SeparateStages(c: Config, w: World, a: Request, aSpec: Spec, s: Stage, b: Request, bSpec: Spec, t: Stage)
    requires w.Quiet() && a.ns != b.ns
    requires Reads(a, s) !! Footprint(b, t) && Reads(b, t) !! Footprint(a, s) && Footprint(a, s) !! Footprint(b, t)
    ensures var (f, g) := (RunStage(c, w, a, aSpec, s), RunStage(c, w, b, bSpec, t));
            Diamond(f, g, RunStage(c, f.0, b, bSpec, t), RunStage(c, g.0, a, aSpec, s))
  {
    var f, g := RunStage(c, w, a, aSpec, s), RunStage(c, w, b, bSpec, t);
    var p0 := StageMoves(c, w, w, a, aSpec, s);
    var q0 := StageMoves(c, w, w, b, bSpec, t);
    AlikeElsewhere(b.ns, Reads(b, t), w, p0, a.ns);
    AlikeElsewhere(a.ns, Reads(a, s), w, q0, b.ns);
    var p := StageMoves(c, w, g.0, a, aSpec, s);
    var q := StageMoves(c, w, f.0, b, bSpec, t);
    ApplyCommutes(w, p, q);
  }

  /** The same opposite-scope object is removed by both; their own objects are separate. */
  lemma ScopedStages(w: World, opposite: Key, k: Key, x: Obj, xSpec: Spec, n: string, l: Key, y: Obj, ySpec: Spec,
                     m: string)
    requires w.Quiet() && k != l && k != opposite && l != opposite && n != m
    requires !k.kind.DeploymentKind? && !l.kind.DeploymentKind?
    requires !x.body.DeploymentBody? && !x.body.ConfigBody? && !y.body.DeploymentBody? && !y.body.ConfigBody?
    ensures var (f, g) := (EnsureScoped(w, opposite, k, x, xSpec), EnsureScoped(w, opposite, l, y, ySpec));
            Diamond(f, g, EnsureScoped(f.0, opposite, l, y, ySpec), EnsureScoped(g.0, opposite, k, x, xSpec))
  {
    DropOppositeLands(w, opposite);
    var w1 := DropOpposite(w, opposite).0;
    var f, g := Ensure(w1, k, x, xSpec).0, Ensure(w1, l, y, ySpec).0;
    EnsureLands(w1, k, x, xSpec);
    EnsureLands(w1, l, y, ySpec);
    assert f.Lookup(opposite) == w1.Lookup(opposite) && g.Lookup(opposite) == w1.Lookup(opposite);
    DropOppositeLands(f, opposite);
    DropOppositeLands(g, opposite);
    EnsureLands(f, l, y, ySpec);
    EnsureLands(g, k, x, xSpec);
    SeparateEnsures(w1, k, x, xSpec, n, l, y, ySpec, m);
  }

  lemma SeparateEnsures(w: World, k: Key, x: Obj, xSpec: Spec, n: string, l: Key, y: Obj, ySpec: Spec, m: string)
    requires w.Quiet() && k != l && n != m && !k.kind.DeploymentKind? && !l.kind.DeploymentKind?
    ensures Ensure(Ensure(w, k, x, xSpec).0, l, y, ySpec).0 == Ensure(Ensure(w, l, y, ySpec).0, k, x, xSpec).0
  {
    var p0 := EnsureMoves(w, w, k, x, xSpec, n, {k});
    var q0 := EnsureMoves(w, w, l, y, ySpec, m, {l});
    AlikeElsewhere(m, {l}, w, p0, n);
    AlikeElsewhere(n, {k}, w, q0, m);
    var p := EnsureMoves(w, Ensure(w, l, y, ySpec).0, k, x, xSpec, n, {k});
    var q := EnsureMoves(w, Ensure(w, k, x, xSpec).0, l, y, ySpec, m, {l});
    ApplyCommutes(w, p, q);
  }

  predicate IsShared(s: Stage) {
    s.RoleStage? || s.RoleBindingStage? || s.AggregateStage?
  }

  predicate IsNamespaced(s: Stage) {
    !s.ClusterRoleStage? && !s.ClusterRoleBindingStage?
  }

  lemma SeparateKeys(a: Request, s: Stage, b: Request, t: Stage)
    requires a.ns != b.ns && IsNamespaced(s) && IsNamespaced(t) && (s != t || !IsShared(s))
    ensures Reads(a, s) !! Footprint(b, t) && Footprint(a, s) !! Footprint(b, t)
  {
    if s.AggregateStage? {
      AggregatesAreNotTheClusterRole(s.a);
    }
    if t.AggregateStage? {
      AggregatesAreNotTheClusterRole(t.a);
    }
  }

  lemma AggregateStagesCommute(c: Config, w: World, a: Request, aSpec: Spec, b: Request, bSpec: Spec, x: Aggregation)
    requires w.Quiet() && SpecsAgree(aSpec, bSpec)
    ensures var s := AggregateStage(x);
            var (f, g) := (RunObject(c, w, a, aSpec, s), RunObject(c, w, b, bSpec, s));
            Diamond(f, g, RunObject(c, f.0, b, bSpec, s), RunObject(c, g.0, a, aSpec, s))
  {
    var s := AggregateStage(x);
    var e, d := Expected(c, a, aSpec, s), Expected(c, b, bSpec, s);
    assert MetaAgrees(e.meta, d.meta);
    AggregatesCommute(w, x, e, aSpec, d, bSpec);
    EnsureAggregate(w, x, e, aSpec);
    EnsureAggregate(w, x, d, bSpec);
    EnsureAggregate(Ensure(w, AggregateKey(x), e, aSpec).0, x, d, bSpec);
    EnsureAggregate(Ensure(w, AggregateKey(x), d, bSpec).0, x, e, aSpec);
  }

  lemma SharedStages(c: Config, w: World, a: Request, aSpec: Spec, b: Request, bSpec: Spec, s: Stage)
    requires w.Quiet() && a.ns != b.ns && IsShared(s) && SpecsAgree(aSpec, bSpec)
    ensures var (f, g) := (RunObject(c, w, a, aSpec, s), RunObject(c, w, b, bSpec, s));
            Diamond(f, g, RunObject(c, f.0, b, bSpec, s), RunObject(c, g.0, a, aSpec, s))
  {
    if s.AggregateStage? {
      AggregateStagesCommute(c, w, a, aSpec, b, bSpec, s.a);
    } else {
      ScopedStages(w, OppositeKey(a, s).value, KeyOf(a, s), Expected(c, a, aSpec, s), aSpec, a.ns,
                   KeyOf(b, s), Expected(c, b, bSpec, s), bSpec, b.ns);
    }
  }

  lemma StagesPairwise(c: Config, w: World, a: Request, aSpec: Spec, s: Stage, b: Request, bSpec: Spec, t: Stage)
    requires w.Quiet() && a.ns != b.ns && IsNamespaced(s) && IsNamespaced(t) && SpecsAgree(aSpec, bSpec)
    ensures var (f, g) := (RunStage(c, w, a, aSpec, s), RunStage(c, w, b, bSpec, t));
            Diamond(f, g, RunStage(c, f.0, b, bSpec, t), RunStage(c, g.0, a, aSpec, s))
  {
    if s == t && IsShared(s) {
      SharedStages(c, w, a, aSpec, b, bSpec, s);
    } else {
      SeparateKeys(a, s, b, t);
      SeparateKeys(b, t, a, s);
      SeparateStages(c, w, a, aSpec, s, b, bSpec, t);
    }
  }

  // ----- All stages of both -----

  ghost predicate AllNamespaced(stages: seq<Stage>) {
    forall s | s in stages :: IsNamespaced(s)
  }

  lemma StageStaysQuiet(c: Config, w: World, r: Request, spec: Spec, s: Stage)
    requires w.Quiet()
    ensures RunStage(c, w, r, spec, s).0.Quiet()
  {
    StageLands(c, r, spec, s, w);
  }

  lemma {:induction false} OneWithMany(c: Config, w: World, a: Request, aSpec: Spec, s: Stage, b: Request, bSpec: Spec,
                                       stages: seq<Stage>)
    requires w.Quiet() && a.ns != b.ns && IsNamespaced(s) && AllNamespaced(stages) && SpecsAgree(aSpec, bSpec)
    ensures var (f, g) := (RunStage(c, w, a, aSpec, s), RunStages(c, w, b, bSpec, stages));
            Diamond(f, g, RunStages(c, f.0, b, bSpec, stages), RunStage(c, g.0, a, aSpec, s))
    decreases |stages|
  {
    if stages != [] {
      StagesPairwise(c, w, a, aSpec, s, b, bSpec, stages[0]);
      StageStaysQuiet(c, w, b, bSpec, stages[0]);
      OneWithMany(c, RunStage(c, w, b, bSpec, stages[0]).0, a, aSpec, s, b, bSpec, stages[1..]);
    }
  }

  lemma {:induction false} ManyWithMany(c: Config, w: World, a: Request, aSpec: Spec, xs: seq<Stage>,
                                         b: Request, bSpec: Spec, ys: seq<Stage>)
    requires w.Quiet() && a.ns != b.ns && AllNamespaced(xs) && AllNamespaced(ys) && SpecsAgree(aSpec, bSpec)
    ensures var (f, g) := (RunStages(c, w, a, aSpec, xs), RunStages(c, w, b, bSpec, ys));
            Diamond(f, g, RunStages(c, f.0, b, bSpec, ys), RunStages(c, g.0, a, aSpec, xs))
    decreases |xs|
  {
    if xs != [] {
      OneWithMany(c, w, a, aSpec, xs[0], b, bSpec, ys);
      StageStaysQuiet(c, w, a, aSpec, xs[0]);
      ManyWithMany(c, RunStage(c, w, a, aSpec, xs[0]).0, a, aSpec, xs[1..], b, bSpec, ys);
    }
  }

  // ----- Status writes do not matter to the stages -----

  /** A world with other statuses and a longer queue. */
  function Marked(w: World, rms: map<Request, RolloutManager>, queued: set<Request>): World {
    w.(rms := rms, queue := w.queue + queued)
  }

  lemma MarkedPatch(w: World, rms: map<Request, RolloutManager>, queued: set<Request>, p: Patch)
    ensures Apply(Marked(w, rms, queued), p) == Marked(Apply(w, p), rms, queued)
  {
    assert (w.queue + queued) + p.woken == (w.queue + p.woken) + queued;
  }

  lemma StageIgnoresMarks(c: Config, w: World, r: Request, spec: Spec, s: Stage, rms: map<Request, RolloutManager>,
                          queued: set<Request>)
    requires w.Quiet() && rms.Keys == w.rms.Keys
    ensures var (v, o) := RunStage(c, w, r, spec, s);
            RunStage(c, Marked(w, rms, queued), r, spec, s) == (Marked(v, rms, queued), o)
  {
    var p := StageMoves(c, w, Marked(w, rms, queued), r, spec, s);
    MarkedPatch(w, rms, queued, p);
  }

  lemma {:induction false} StagesIgnoreMarks(c: Config, w: World, r: Request, spec: Spec, stages: seq<Stage>,
                                             rms: map<Request, RolloutManager>, queued: set<Request>)
    requires w.Quiet() && rms.Keys == w.rms.Keys
    ensures var (v, o) := RunStages(c, w, r, spec, stages);
            RunStages(c, Marked(w, rms, queued), r, spec, stages) == (Marked(v, rms, queued), o)
    decreases |stages|
  {
    if stages != [] {
      StageIgnoresMarks(c, w, r, spec, stages[0], rms, queued);
      StageLands(c, r, spec, stages[0], w);
      StagesIgnoreMarks(c, RunStage(c, w, r, spec, stages[0]).0, r, spec, stages[1..], rms, queued);
    }
  }

  // ----- Two reconciles -----

  lemma ManagerInNamespaceMode(c: Config, w: World, r: Request, rm: RolloutManager)
    requires w.Quiet() && c.namespaceScoped
    ensures !rm.spec.namespaceScoped ==>
            ReconcileManager(c, w, r, rm) ==
              (w, Rejection(CreateCondition(Message(NotClusterScoped), [InvalidScope])), Done)
    ensures rm.spec.namespaceScoped ==> ReconcileManager(c, w, r, rm) == RunAdmitted(c, w, r, rm)
  {
  }

  lemma ManagerIgnoresMarks(c: Config, w: World, r: Request, rm: RolloutManager, rms: map<Request, RolloutManager>,
                            queued: set<Request>)
    requires w.Quiet() && c.namespaceScoped && rms.Keys == w.rms.Keys
    ensures var (v, res, o) := ReconcileManager(c, w, r, rm);
            ReconcileManager(c, Marked(w, rms, queued), r, rm) == (Marked(v, rms, queued), res, o)
  {
    ManagerInNamespaceMode(c, w, r, rm);
    ManagerInNamespaceMode(c, Marked(w, rms, queued), r, rm);
    if rm.spec.namespaceScoped {
      AdmittedResult(c, w, r, rm);
      AdmittedResult(c, Marked(w, rms, queued), r, rm);
      StagesIgnoreMarks(c, w, r, rm.spec, Pipeline(rm.spec), rms, queued);
    }
  }

  lemma NamespacedPipeline(spec: Spec)
    requires spec.namespaceScoped
    ensures AllNamespaced(Pipeline(spec))
  {
  }

  /** Another RolloutManager's stages do not touch the Deployment. */
  lemma DeploymentElsewhere(a: Request, b: Request, spec: Spec, w: World, v: World)
    requires a.ns != b.ns && spec.namespaceScoped && Within(w, v, Footprints(b, Pipeline(spec)))
    ensures CurrentPhase(v.objs, a) == CurrentPhase(w.objs, a)
  {
    var k := KeyOf(a, DeploymentStage);
    if k in Footprints(b, Pipeline(spec)) {
      var i := InFootprints(b, Pipeline(spec), k);
      assert false;
    }
    assert v.Lookup(k) == w.Lookup(k);
  }

  ghost predicate SameWithEither(f: (World, StatusResult, Outcome), g: (World, StatusResult, Outcome),
                                 gAfterF: (World, StatusResult, Outcome), fAfterG: (World, StatusResult, Outcome)) {
    gAfterF.0 == fAfterG.0 && gAfterF.1 == g.1 && gAfterF.2 == g.2 && fAfterG.1 == f.1 && fAfterG.2 == f.2
  }

  lemma AdmittedCommute(c: Config, w: World, a: Request, x: RolloutManager, b: Request, y: RolloutManager)
    requires w.Quiet() && a.ns != b.ns && x.spec.namespaceScoped && y.spec.namespaceScoped && SpecsAgree(x.spec, y.spec)
    ensures var (f, g) := (RunAdmitted(c, w, a, x), RunAdmitted(c, w, b, y));
            SameWithEither(f, g, RunAdmitted(c, f.0, b, y), RunAdmitted(c, g.0, a, x))
  {
    NamespacedPipeline(x.spec);
    NamespacedPipeline(y.spec);
    ManyWithMany(c, w, a, x.spec, Pipeline(x.spec), b, y.spec, Pipeline(y.spec));
    AdmittedResult(c, w, a, x);
    AdmittedResult(c, w, b, y);
    var f, g := Staged(c, w, a, x).0, Staged(c, w, b, y).0;
    AdmittedResult(c, f, b, y);
    AdmittedResult(c, g, a, x);
    DeploymentElsewhere(a, b, y.spec, f, Staged(c, f, b, y).0);
    DeploymentElsewhere(b, a, x.spec, g, Staged(c, g, a, x).0);
  }

  lemma ManagersCommute(c: Config, w: World, a: Request, x: RolloutManager, b: Request, y: RolloutManager)
    requires w.Quiet() && c.namespaceScoped && a.ns != b.ns
    requires x.spec.namespaceScoped && y.spec.namespaceScoped ==> SpecsAgree(x.spec, y.spec)
    ensures var (f, g) := (ReconcileManager(c, w, a, x), ReconcileManager(c, w, b, y));
            SameWithEither(f, g, ReconcileManager(c, f.0, b, y), ReconcileManager(c, g.0, a, x))
  {
    ManagerInNamespaceMode(c, w, a, x);
    ManagerInNamespaceMode(c, w, b, y);
    var f, g := ReconcileManager(c, w, a, x).0, ReconcileManager(c, w, b, y).0;
    ManagerWithin(c, w, a, x);
    ManagerWithin(c, w, b, y);
    ManagerInNamespaceMode(c, f, b, y);
    ManagerInNamespaceMode(c, g, a, x);
    if x.spec.namespaceScoped && y.spec.namespaceScoped {
      AdmittedCommute(c, w, a, x, b, y);
    }
  }

  /** The RolloutManager with the status a result leads to. */
  function Concluded(rm: RolloutManager, res: StatusResult, o: Outcome, now: nat): RolloutManager {
    if o.Panicked? || StatusSettled(rm.status, res) then rm else rm.(status := NextStatus(rm.status, res, now))
  }

  lemma WriteMarks(w: World, r: Request, rm: RolloutManager, res: StatusResult, o: Outcome)
    requires w.Quiet() && r in w.rms && w.rms[r] == rm
    ensures var after := Concluded(rm, res, o, w.now);
            WriteResult(w, r, rm, res, o) == (Marked(w, w.rms[r := after], if after == rm then {} else {r}), o)
  {
    assert w.rms[r := rm] == w.rms && w.queue + {} == w.queue;
  }

  lemma ReconcileMarks(c: Config, w: World, r: Request)
    requires w.Quiet() && r in w.rms && w.NamespaceIsLive(r.ns)
    ensures var (v, res, o) := ReconcileManager(c, w, r, w.rms[r]);
            var after := Concluded(w.rms[r], res, o, w.now);
            v.rms == w.rms && v.now == w.now && v.namespaces == w.namespaces && v.Quiet() &&
            Reconcile(c, w, r) == (Marked(v, w.rms[r := after], if after == w.rms[r] then {} else {r}), o)
  {
    ManagerWithin(c, w, r, w.rms[r]);
    var (v, res, o) := ReconcileManager(c, w, r, w.rms[r]);
    WriteMarks(v, r, w.rms[r], res, o);
  }

  /** What the second of two reconciles leaves. */
  lemma SecondReconcile(c: Config, w: World, a: Request, b: Request)
    requires w.Quiet() && c.namespaceScoped && a in w.rms && b in w.rms && a != b
    requires w.NamespaceIsLive(a.ns) && w.NamespaceIsLive(b.ns)
    ensures var (f, fr, fo) := ReconcileManager(c, w, a, w.rms[a]);
            var (h, hr, ho) := ReconcileManager(c, f, b, w.rms[b]);
            var x, y := Concluded(w.rms[a], fr, fo, w.now), Concluded(w.rms[b], hr, ho, w.now);
            Reconcile(c, Reconcile(c, w, a).0, b) ==
            (h.(rms := w.rms[a := x][b := y],
                queue := h.queue + (if x == w.rms[a] then {} else {a}) + (if y == w.rms[b] then {} else {b})), ho)
  {
    ReconcileMarks(c, w, a);
    var v := Reconcile(c, w, a).0;
    var f := ReconcileManager(c, w, a, w.rms[a]).0;
    ReconcileMarks(c, v, b);
    ManagerIgnoresMarks(c, f, b, w.rms[b], v.rms, if v.rms[a] == w.rms[a] then {} else {a});
  }

  lemma MarksCommute(w: World, rms: map<Request, RolloutManager>, a: Request, x: RolloutManager, p: set<Request>,
                     b: Request, y: RolloutManager, q: set<Request>)
    requires a != b
    ensures w.(rms := rms[a := x][b := y], queue := w.queue + p + q) ==
            w.(rms := rms[b := y][a := x], queue := w.queue + q + p)
  {
    assert rms[a := x][b := y] == rms[b := y][a := x];
    assert w.queue + p + q == w.queue + q + p;
  }

  predicate MayCommute(c: Config, w: World, a: Request, b: Request) {
    w.Quiet() && c.namespaceScoped && a in w.rms && b in w.rms && a.ns != b.ns &&
    w.NamespaceIsLive(a.ns) && w.NamespaceIsLive(b.ns)
  }

  /** Reconciling in one namespace and then in the other is the same as the other way round. */
  lemma ReconcilesCommute(c: Config, w: World, a: Request, b: Request)
    requires MayCommute(c, w, a, b)
    requires w.rms[a].spec.namespaceScoped && w.rms[b].spec.namespaceScoped ==> SpecsAgree(w.rms[a].spec, w.rms[b].spec)
    ensures var (f, g) := (Reconcile(c, w, a), Reconcile(c, w, b));
            Diamond(f, g, Reconcile(c, f.0, b), Reconcile(c, g.0, a))
  {
    ManagersCommute(c, w, a, w.rms[a], b, w.rms[b]);
    ReconcileMarks(c, w, a);
    ReconcileMarks(c, w, b);
    SecondReconcile(c, w, a, b);
    SecondReconcile(c, w, b, a);
    var (f, fr, fo) := ReconcileManager(c, w, a, w.rms[a]);
    var (h, hr, ho) := ReconcileManager(c, f, b, w.rms[b]);
    var x, y := Concluded(w.rms[a], fr, fo, w.now), Concluded(w.rms[b], hr, ho, w.now);
    MarksCommute(h, w.rms, a, x, if x == w.rms[a] then {} else {a}, b, y, if y == w.rms[b] then {} else {b});
  }

  // ----- Only then -----

  ghost predicate Imposed(objs: map<Key, Obj>, a: Aggregation, spec: Spec) {
    AggregateKey(a) in objs &&
    var has, want := objs[AggregateKey(a)].meta, ExpectedAggregateMeta(a, spec);
    has.labels.Content() == has.labels.Content() + want.labels.Content() &&
    has.annotations.Content() == has.annotations.Content() + want.annotations.Content()
  }

  lemma AggregateImposes(c: Config, w: World, r: Request, spec: Spec, a: Aggregation)
    requires w.Quiet()
    ensures Imposed(RunObject(c, w, r, spec, AggregateStage(a)).0.objs, a, spec)
  {
    var e := Expected(c, r, spec, AggregateStage(a));
    EnsureAggregate(w, a, e, spec);
    DrivenContent(Before(w, AggregateKey(a), e), e, spec);
    ImposedByContent(RunObject(c, w, r, spec, AggregateStage(a)).0.objs, a, spec, Before(w, AggregateKey(a), e).meta);
  }

  lemma ImposedByContent(objs: map<Key, Obj>, a: Aggregation, spec: Spec, before: Meta)
    requires AggregateKey(a) in objs
    requires objs[AggregateKey(a)].meta.labels.Content() ==
             before.labels.Content() + ExpectedAggregateMeta(a, spec).labels.Content()
    requires objs[AggregateKey(a)].meta.annotations.Content()
          == before.annotations.Content() + ExpectedAggregateMeta(a, spec).annotations.Content()
    ensures Imposed(objs, a, spec)
  {
    OverrideTwice(before.labels.Content(), ExpectedAggregateMeta(a, spec).labels.Content());
    OverrideTwice(before.annotations.Content(), ExpectedAggregateMeta(a, spec).annotations.Content());
  }

  /** A run of stages that gets as far as an aggregate role leaves its expectations on it. */
  lemma {:induction false} StagesImpose(c: Config, w: World, r: Request, spec: Spec, stages: seq<Stage>, i: nat)
    requires w.Quiet() && Disjoint(r, stages) && i < |stages| && stages[i].AggregateStage?
    requires forall j | 0 <= j < i :: !stages[j].ConfigMapStage? && !stages[j].DeploymentStage?
    ensures Imposed(RunStages(c, w, r, spec, stages).0.objs, stages[i].a, spec)
    decreases |stages|
  {
    var s, rest := stages[0], stages[1..];
    StageLands(c, r, spec, s, w);
    HeadIsSeparate(r, stages);
    var (w1, o) := RunStage(c, w, r, spec, s);
    if i == 0 {
      AggregateImposes(c, w, r, spec, s.a);
      if o == Done {
        StagesWithin(c, r, spec, rest, w1);
        assert AggregateKey(s.a) in Footprint(r, s);
        assert RunStages(c, w1, r, spec, rest).0.Lookup(AggregateKey(s.a)) == w1.Lookup(AggregateKey(s.a));
      }
    } else {
      OtherStageSucceeds(c, r, spec, s, w);
      StagesImpose(c, w1, r, spec, rest, i - 1);
    }
  }

  lemma ReconcileImposes(c: Config, w: World, r: Request, a: Aggregation)
    requires w.Quiet() && c.namespaceScoped && r in w.rms && w.NamespaceIsLive(r.ns) && w.rms[r].spec.namespaceScoped
    ensures Imposed(Reconcile(c, w, r).0.objs, a, w.rms[r].spec)
  {
    var rm := w.rms[r];
    var i := match a case Admin => 2 case Edit => 3 case View => 4;
    PipelineIsDisjoint(r, rm.spec);
    assert Pipeline(rm.spec)[i] == AggregateStage(a);
    StagesImpose(c, w, r, rm.spec, Pipeline(rm.spec), i);
    ReconcileMarks(c, w, r);
    ManagerInNamespaceMode(c, w, r, rm);
    AdmittedResult(c, w, r, rm);
  }

  lemma BothImposedAgree(objs: map<Key, Obj>, a: Aggregation, x: Spec, y: Spec)
    requires Imposed(objs, a, x) && Imposed(objs, a, y)
    ensures MetaAgrees(ExpectedAggregateMeta(a, x), ExpectedAggregateMeta(a, y))
  {
    var has := objs[AggregateKey(a)].meta;
    var m, n := ExpectedAggregateMeta(a, x), ExpectedAggregateMeta(a, y);
    LastOverrideWins(has.labels.Content(), m.labels.Content(), n.labels.Content());
    LastOverrideWins(has.annotations.Content(), m.annotations.Content(), n.annotations.Content());
  }

  lemma LastOverrideWins(has: map<string, string>, x: map<string, string>, y: map<string, string>)
    requires has == has + x && has == has + y
    ensures MapsAgree(x, y)
  {
    forall k | k in x && k in y ensures x[k] == y[k] {
      assert (has + x)[k] == x[k] && (has + y)[k] == y[k];
    }
  }

  /** The two orders agree exactly when nothing is expected of a shared role that disagrees. */
  lemma CommuteExactly(c: Config, w: World, a: Request, b: Request)
    requires MayCommute(c, w, a, b)
    ensures Reconcile(c, Reconcile(c, w, a).0, b).0 == Reconcile(c, Reconcile(c, w, b).0, a).0 <==>
            (w.rms[a].spec.namespaceScoped && w.rms[b].spec.namespaceScoped ==>
             SpecsAgree(w.rms[a].spec, w.rms[b].spec))
  {
    if !(w.rms[a].spec.namespaceScoped && w.rms[b].spec.namespaceScoped) || SpecsAgree(w.rms[a].spec, w.rms[b].spec) {
      ReconcilesCommute(c, w, a, b);
    } else {
      ReconcileMarks(c, w, a);
      ReconcileMarks(c, w, b);
      LeavesLive(c, w, a, b);
      LeavesLive(c, w, b, a);
      var v, u := Reconcile(c, Reconcile(c, w, a).0, b).0, Reconcile(c, Reconcile(c, w, b).0, a).0;
      forall x: Aggregation | v == u
        ensures MetaAgrees(ExpectedAggregateMeta(x, w.rms[a].spec), ExpectedAggregateMeta(x, w.rms[b].spec))
      {
        ReconcileImposes(c, Reconcile(c, w, a).0, b, x);
        ReconcileImposes(c, Reconcile(c, w, b).0, a, x);
        BothImposedAgree(v.objs, x, w.rms[a].spec, w.rms[b].spec);
      }
    }
  }

  lemma LeavesLive(c: Config, w: World, a: Request, b: Request)
    requires MayCommute(c, w, a, b)
    ensures var v := Reconcile(c, w, a).0;
            v.Quiet() && b in v.rms && v.rms[b] == w.rms[b] && v.NamespaceIsLive(b.ns)
  {
    ReconcileMarks(c, w, a);
  }

  // ----- What one reconcile may touch -----

  lemma FootprintsAreOwn(r: Request, stages: seq<Stage>, k: Key)
    ensures k in Footprints(r, stages) ==> k.ns == r.ns || IsClusterScoped(k)
  {
    if k in Footprints(r, stages) {
      var i := InFootprints(r, stages, k);
    }
  }

  /** A reconcile changes only fixed keys of its own namespace and the five cluster-scoped ones. */
  lemma ReconcileTouchesOwnKeys(c: Config, w: World, r: Request, k: Key)
    requires w.Quiet()
    ensures Reconcile(c, w, r).0.Lookup(k) == w.Lookup(k) || IsClusterScoped(k) ||
            (r in w.rms && k in Footprints(r, Pipeline(w.rms[r].spec)) && k.ns == r.ns)
  {
    if r.ns !in w.namespaces || (!w.namespaces[r.ns] && r !in w.rms) {
      RemoveAllLands(w, CLUSTER_SCOPED);
    } else if !w.namespaces[r.ns] {
      ReconcileMarks(c, w, r);
      ManagerWithin(c, w, r, w.rms[r]);
      FootprintsAreOwn(r, Pipeline(w.rms[r].spec), k);
    }
  }
}
