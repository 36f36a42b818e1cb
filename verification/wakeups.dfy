/** No lost wake-up: in cluster-scoped mode an admitted RolloutManager in a live namespace is
    either queued or has all five cluster-scoped objects, in every state of every run, however
    outsiders act between the operator's API calls and whichever of those calls fail. */
module Wakeups {
  import opened GoTypes
  import opened RolloutManagers
  import opened Metadata
  import opened Statuses
  import opened Cluster
  import opened Operator
  import opened Traces

  /** Passes both gates, in a namespace that is not going away. */
  predicate LiveAdmitted(c: Config, w: World, r: Request) {
    w.NamespaceIsLive(r.ns) && Admitted(c, w.rms, r)
  }

  predicate IsAggregate(k: Key) {
    k == AggregateKey(Admin) || k == AggregateKey(Edit) || k == AggregateKey(View)
  }

  predicate IsClusterScoped(k: Key) {
    k == CLUSTER_ROLE || k == CLUSTER_ROLE_BINDING || IsAggregate(k)
  }

  predicate HasAllFive(w: World) {
    CLUSTER_ROLE in w.objs && CLUSTER_ROLE_BINDING in w.objs &&
    AggregateKey(Admin) in w.objs && AggregateKey(Edit) in w.objs && AggregateKey(View) in w.objs
  }

  predicate Safe(c: Config, w: World, r: Request) {
    LiveAdmitted(c, w, r) ==> r in w.queue || HasAllFive(w)
  }

  ghost predicate NoLostWakeup(c: Config, w: World) {
    forall r :: Safe(c, w, r)
  }

  ghost predicate AllQueued(c: Config, w: World) {
    forall r | LiveAdmitted(c, w, r) :: r in w.queue
  }

  // ----- Which outside changes lose a wake-up -----

  /** Deleting an aggregate role; or, when the watch handler cannot list, deleting the ClusterRole
      or its binding, deleting a RolloutManager, or making one namespace-scoped. */
  predicate Harmful(e: Event) {
    match e.change
    case RemoveObject(k) => IsAggregate(k) || (!e.notified && IsClusterScoped(k))
    case DeleteManager(_) => !e.notified
    case ChangeSpec(_, spec) => !e.notified && spec.namespaceScoped
    case _ => false
  }

  /** The API server keeps a namespace for as long as it holds RolloutManagers. */
  predicate NamespacesExist(w: World) {
    forall r | r in w.rms :: r.ns in w.namespaces
  }

  predicate HarmlessTurn(t: Turn) {
    forall e | e in t.outside :: !Harmful(e)
  }

  predicate Tame(w: World) {
    NamespacesExist(w) && forall t | t in w.schedule :: HarmlessTurn(t)
  }

  // ----- How the world may evolve without losing a wake-up -----

  /** Whoever becomes admitted is queued, the queue loses nobody, and if a cluster-scoped
      object disappears then everybody admitted is queued. */
  ghost predicate Evolves(c: Config, w: World, v: World) {
    (forall r | LiveAdmitted(c, v, r) :: LiveAdmitted(c, w, r) || r in v.queue) &&
    w.queue <= v.queue &&
    (AllQueued(c, v) || forall k | IsClusterScoped(k) && k in w.objs :: k in v.objs) &&
    (Tame(w) ==> Tame(v))
  }

  lemma EvolvesReflexive(c: Config, w: World)
    requires Tame(w)
    ensures Evolves(c, w, w)
  {
  }

  lemma EvolvesTransitive(c: Config, u: World, v: World, w: World)
    requires Evolves(c, u, v) && Evolves(c, v, w)
    ensures Evolves(c, u, w)
  {
  }

  lemma SetObjectEvolves(c: Config, w: World, k: Key, after: Option<Obj>, notified: bool)
    requires NamespacesExist(w) && (after.Some? || !IsClusterScoped(k) || (notified && !IsAggregate(k)))
    ensures Evolves(c, w, SetObject(w, k, after, notified))
    ensures k == CLUSTER_ROLE && after.None? && k in w.objs ==> AllQueued(c, SetObject(w, k, after, notified))
  {
    var v := SetObject(w, k, after, notified);
    assert forall r :: LiveAdmitted(c, v, r) <==> LiveAdmitted(c, w, r);
  }

  lemma ChangeEvolves(c: Config, w: World, e: Event)
    requires NamespacesExist(w) && !Harmful(e)
    ensures Evolves(c, w, ApplyChange(w, e.change, e.notified))
  {
    var v := ApplyChange(w, e.change, e.notified);
    match e.change
    case PutObject(k, obj) => SetObjectEvolves(c, w, k, Some(obj), e.notified);
    case RemoveObject(k) => SetObjectEvolves(c, w, k, None, e.notified);
    case CreateManager(r, spec) => CreationEvolves(c, w, r, spec, e.notified);
    case DeleteManager(_) => assert v == w || AllQueued(c, v);
    case ChangeSpec(r, spec) => SpecEvolves(c, w, r, spec, e.notified);
    case _ => NamespaceChangeEvolves(c, w, v);
  }

  /** A further RolloutManager can only take admission away from the others. */
  lemma CreationEvolves(c: Config, w: World, r: Request, spec: Spec, notified: bool)
    requires NamespacesExist(w)
    ensures Evolves(c, w, ApplyChange(w, CreateManager(r, spec), notified))
  {
    var v := ApplyChange(w, CreateManager(r, spec), notified);
    forall q | LiveAdmitted(c, v, q) && q != r ensures LiveAdmitted(c, w, q) {
      FewerRivals(c, w.rms, v.rms, q);
    }
  }

  /** So can one that becomes, or stays, cluster-scoped. */
  lemma SpecEvolves(c: Config, w: World, r: Request, spec: Spec, notified: bool)
    requires NamespacesExist(w) && (notified || !spec.namespaceScoped)
    ensures Evolves(c, w, ApplyChange(w, ChangeSpec(r, spec), notified))
  {
    var v := ApplyChange(w, ChangeSpec(r, spec), notified);
    forall q | LiveAdmitted(c, v, q) && q != r ensures LiveAdmitted(c, w, q) || q in v.queue {
      if !notified {
        FewerRivals(c, w.rms, v.rms, q);
      }
    }
  }

  lemma FewerRivals(c: Config, before: map<Request, RolloutManager>, after: map<Request, RolloutManager>, q: Request)
    requires Admitted(c, after, q) && q in before && after[q].spec == before[q].spec
    requires forall p | p in before && p != q && !before[p].spec.namespaceScoped ::
             p in after && !after[p].spec.namespaceScoped
    ensures Admitted(c, before, q)
  {
  }

  /** No RolloutManager becomes live through namespaces alone. */
  lemma NamespaceChangeEvolves(c: Config, w: World, v: World)
    requires NamespacesExist(w)
    requires v == w.(namespaces := v.namespaces, pods := v.pods)
    requires forall r | r in w.rms :: r.ns in v.namespaces && (v.NamespaceIsLive(r.ns) ==> w.NamespaceIsLive(r.ns))
    ensures Evolves(c, w, v)
  {
  }

  lemma {:induction false} ChangesEvolve(c: Config, w: World, events: seq<Event>)
    requires Tame(w) && forall e | e in events :: !Harmful(e)
    ensures Evolves(c, w, ApplyAll(w, events))
    decreases |events|
  {
    if events != [] {
      var v := ApplyChange(w, events[0].change, events[0].notified);
      ChangeEvolves(c, w, events[0]);
      ChangesEvolve(c, v, events[1..]);
      EvolvesTransitive(c, w, v, ApplyAll(w, events));
    }
  }

  lemma BeginEvolves(c: Config, w: World)
    requires Tame(w)
    ensures Evolves(c, w, Begin(w))
  {
    if !w.Quiet() {
      var t := w.schedule[0];
      assert HarmlessTurn(t);
      var v := w.(schedule := w.schedule[1..], now := w.now + t.elapsed);
      assert forall r :: LiveAdmitted(c, v, r) <==> LiveAdmitted(c, w, r);
      ChangesEvolve(c, v, t.outside);
      EvolvesTransitive(c, w, v, Begin(w));
    }
  }

  /** Admission looks at specs and namespaces only. */
  lemma SameAdmission(c: Config, w: World, v: World)
    requires w.namespaces == v.namespaces && w.rms.Keys == v.rms.Keys
    requires forall q | q in w.rms :: w.rms[q].spec == v.rms[q].spec
    ensures forall q :: LiveAdmitted(c, v, q) <==> LiveAdmitted(c, w, q)
  {
    forall q ensures OtherClusterScoped(v.rms, q) <==> OtherClusterScoped(w.rms, q) {
    }
  }

  lemma MarkingEvolves(c: Config, b: World, v: World, r: Request)
    requires v == b.(rms := v.rms, queue := b.queue + {r}) && r in b.rms && v.rms.Keys == b.rms.Keys
    requires forall q | q in b.rms :: v.rms[q].spec == b.rms[q].spec
    ensures Evolves(c, b, v)
  {
    SameAdmission(c, b, v);
  }

  lemma UpdateStatusEvolves(c: Config, w: World, r: Request, fetched: RolloutManager, status: Status)
    requires Tame(w)
    ensures Evolves(c, w, UpdateStatus(w, r, fetched, status).0)
  {
    BeginEvolves(c, w);
    var b, v := Begin(w), UpdateStatus(w, r, fetched, status).0;
    if v != b {
      MarkingEvolves(c, b, v, r);
      EvolvesTransitive(c, w, b, v);
    }
  }

  // ----- The stages -----

  lemma {:induction false} PlayEvolves(c: Config, w: World, calls: seq<Call>, puts: set<Key>, drops: set<Key>)
    requires Tame(w) && StageOnly(calls, puts, drops) && forall k | k in drops :: !IsClusterScoped(k)
    ensures Evolves(c, w, Play(w, calls))
    decreases |calls|
  {
    if calls != [] {
      assert StageCall(calls[0], puts, drops);
      CallEvolves(c, w, calls[0]);
      PlayEvolves(c, Made(w, calls[0]), calls[1..], puts, drops);
      EvolvesTransitive(c, w, Made(w, calls[0]), Play(w, calls));
    }
  }

  lemma CallEvolves(c: Config, w: World, call: Call)
    requires Tame(w) && (call.Look? || call.Put? || call.Evict? || (call.Drop? && !IsClusterScoped(call.key)))
    ensures Evolves(c, w, Made(w, call))
  {
    BeginEvolves(c, w);
    var b, v := Begin(w), Made(w, call);
    if call.Put? {
      SetObjectEvolves(c, b, call.key, Some(call.obj), NextNotified(w));
    } else if call.Drop? {
      SetObjectEvolves(c, b, call.key, None, NextNotified(w));
    } else {
      assert forall r :: LiveAdmitted(c, v, r) <==> LiveAdmitted(c, b, r);
    }
    EvolvesTransitive(c, w, b, v);
  }

  /** An object that was written without an error is there. */
  lemma WriteLeaves(w: World, k: Key, fetched: Obj, obj: Obj)
    ensures Create(w, k, obj).1.None? ==> k in Create(w, k, obj).0.objs
    ensures Update(w, k, fetched, obj).1.None? ==> k in Update(w, k, fetched, obj).0.objs
  {
    var after := Some(Stored(obj));
    assert k in SetObject(Begin(w), k, after, NextNotified(w)).objs;
  }

  /** So is one that was ensured. */
  lemma EnsureLeaves(w: World, k: Key, expected: Obj, spec: Spec)
    ensures Ensure(w, k, expected, spec).1 == Done ==> k in Ensure(w, k, expected, spec).0.objs
  {
    var (w1, live) := Get(w, k);
    if live.Ok? {
      WriteLeaves(w1, k, live.value, Repaired(live.value, expected, spec));
    } else {
      WriteLeaves(w1, k, expected, expected);
    }
  }

  lemma ClusterStageLeaves(c: Config, w: World, r: Request, spec: Spec, s: Stage)
    requires s.ClusterRoleStage? || s.AggregateStage? || s.ClusterRoleBindingStage?
    ensures RunObject(c, w, r, spec, s).1 == Done ==> KeyOf(r, s) in RunObject(c, w, r, spec, s).0.objs
  {
    match OppositeKey(r, s)
    case None => EnsureLeaves(w, KeyOf(r, s), Expected(c, r, spec, s), spec);
    case Some(opposite) => EnsureLeaves(DropOpposite(w, opposite).0, KeyOf(r, s), Expected(c, r, spec, s), spec);
  }

  lemma StageCallsEvolve(c: Config, w: World, r: Request, spec: Spec, s: Stage)
    requires Tame(w) && !s.RoleStage? && !s.RoleBindingStage?
    ensures Evolves(c, w, RunStage(c, w, r, spec, s).0)
  {
    var calls := StageLog(c, w, r, spec, s);
    StageCalls(c, w, r, spec, s);
    DropsNothingClusterScoped(r, s);
    PlayEvolves(c, w, calls, {KeyOf(r, s)}, Drops(r, s));
  }

  lemma DropsNothingClusterScoped(r: Request, s: Stage)
    requires !s.RoleStage? && !s.RoleBindingStage?
    ensures forall k | k in Drops(r, s) :: !IsClusterScoped(k)
  {
  }

  /** Every stage keeps the wake-ups, and leaves its cluster-scoped object in place. */
  lemma StageEvolves(c: Config, w: World, r: Request, spec: Spec, s: Stage)
    requires Tame(w) && !s.RoleStage? && !s.RoleBindingStage?
    ensures Evolves(c, w, RunStage(c, w, r, spec, s).0)
    ensures RunStage(c, w, r, spec, s).1 == Done && IsClusterScoped(KeyOf(r, s)) ==>
            KeyOf(r, s) in RunStage(c, w, r, spec, s).0.objs
  {
    StageCallsEvolve(c, w, r, spec, s);
    if IsClusterScoped(KeyOf(r, s)) {
      ClusterStageLeaves(c, w, r, spec, s);
    }
  }

  lemma {:induction false} StagesEvolve(c: Config, w: World, r: Request, spec: Spec, stages: seq<Stage>)
    requires Tame(w) && RoleStage !in stages && RoleBindingStage !in stages
    ensures Evolves(c, w, RunStages(c, w, r, spec, stages).0)
    ensures RunStages(c, w, r, spec, stages).1 == Done ==>
            forall s | s in stages && IsClusterScoped(KeyOf(r, s)) ::
              KeyOf(r, s) in RunStages(c, w, r, spec, stages).0.objs || AllQueued(c, RunStages(c, w, r, spec, stages).0)
    decreases |stages|
  {
    if stages == [] {
      EvolvesReflexive(c, w);
    } else {
      StageEvolves(c, w, r, spec, stages[0]);
      var (w1, o) := RunStage(c, w, r, spec, stages[0]);
      if o == Done {
        StagesEvolve(c, w1, r, spec, stages[1..]);
        EvolvesTransitive(c, w, w1, RunStages(c, w1, r, spec, stages[1..]).0);
      }
    }
  }

  // ----- One reconcile -----

  lemma SafeEvolves(c: Config, w: World, v: World, r: Request)
    requires Evolves(c, w, v) && Safe(c, w, r)
    ensures Safe(c, v, r)
  {
  }

  /** After a reconcile that finishes, the RolloutManager it was for is safe. */
  lemma RunAdmittedEvolves(c: Config, w: World, r: Request, rm: RolloutManager)
    requires Tame(w) && !rm.spec.namespaceScoped
    ensures Evolves(c, w, RunAdmitted(c, w, r, rm).0)
    ensures RunAdmitted(c, w, r, rm).2 == Done ==> Safe(c, RunAdmitted(c, w, r, rm).0, r)
  {
    StagesEvolve(c, w, r, rm.spec, Pipeline(rm.spec));
    var (w1, o) := RunStages(c, w, r, rm.spec, Pipeline(rm.spec));
    if o == Done {
      PipelineCoversFive(c, w1, r, rm.spec);
      BeginEvolves(c, w1);
      SafeEvolves(c, w1, Begin(w1), r);
      EvolvesTransitive(c, w, w1, Begin(w1));
    }
  }

  lemma PipelineCoversFive(c: Config, w: World, r: Request, spec: Spec)
    requires !spec.namespaceScoped
    requires forall s | s in Pipeline(spec) && IsClusterScoped(KeyOf(r, s)) :: KeyOf(r, s) in w.objs || AllQueued(c, w)
    ensures Safe(c, w, r)
  {
    FiveStages(spec);
    if !AllQueued(c, w) {
      assert KeyOf(r, ClusterRoleStage) in w.objs && KeyOf(r, ClusterRoleBindingStage) in w.objs;
      assert KeyOf(r, AggregateStage(Admin)) in w.objs && KeyOf(r, AggregateStage(Edit)) in w.objs;
      assert KeyOf(r, AggregateStage(View)) in w.objs;
    }
  }

  lemma FiveStages(spec: Spec)
    requires !spec.namespaceScoped
    ensures ClusterRoleStage in Pipeline(spec) && ClusterRoleBindingStage in Pipeline(spec)
    ensures forall a :: AggregateStage(a) in Pipeline(spec)
  {
    var stages := Pipeline(spec);
    assert stages[1] == ClusterRoleStage && stages[5] == ClusterRoleBindingStage;
    forall a ensures AggregateStage(a) in stages {
      assert AggregateStage(a) == stages[match a case Admin => 2 case Edit => 3 case View => 4];
    }
  }

  lemma ReconcileManagerEvolves(c: Config, w: World, r: Request, rm: RolloutManager)
    requires Tame(w) && !c.namespaceScoped && r in w.rms && w.rms[r] == rm
    ensures Evolves(c, w, ReconcileManager(c, w, r, rm).0)
    ensures ReconcileManager(c, w, r, rm).2 == Done ==> Safe(c, ReconcileManager(c, w, r, rm).0, r)
  {
    EvolvesReflexive(c, w);
    if ScopeProblem(c, r, rm.spec).None? {
      BeginEvolves(c, w);
      var (w1, rms) := ListManagers(w);
      if rms.Ok? && !OtherClusterScoped(rms.value, r) {
        RunAdmittedEvolves(c, w1, r, rm);
        EvolvesTransitive(c, w, w1, RunAdmitted(c, w1, r, rm).0);
      }
    }
  }

  lemma WriteResultEvolves(c: Config, w: World, r: Request, rm: RolloutManager, res: StatusResult, o: Outcome)
    requires Tame(w)
    ensures Evolves(c, w, WriteResult(w, r, rm, res, o).0)
  {
    EvolvesReflexive(c, w);
    UpdateStatusEvolves(c, w, r, rm, NextStatus(rm.status, res, w.now));
  }

  // ----- Cleanup -----

  lemma {:induction false} RemoveKeepsAllQueued(c: Config, w: World, keys: seq<Key>)
    requires Tame(w) && AllQueued(c, w)
    ensures AllQueued(c, RemoveAll(w, keys).0) && Tame(RemoveAll(w, keys).0)
    decreases |keys|
  {
    if keys != [] {
      BeginEvolves(c, w);
      var w1 := Begin(w);
      BeginEvolves(c, w1);
      var w2 := Begin(w1);
      var v := SetObject(w2, keys[0], None, NextNotified(w1));
      assert forall q :: LiveAdmitted(c, v, q) <==> LiveAdmitted(c, w2, q);
      assert AllQueued(c, Remove(w, keys[0]).0) && Tame(Remove(w, keys[0]).0);
      RemoveKeepsAllQueued(c, Remove(w, keys[0]).0, keys[1..]);
    }
  }

  /** The object is there, is deleted, and the handler that should tell everybody cannot list. */
  predicate RemovedUnheard(w: World, k: Key) {
    Get(w, k).1.Ok? && NextFault(Begin(w)) != Refused && k in Begin(Begin(w)).objs && !NextNotified(Begin(w))
  }

  /** The removal of the ClusterRole goes unheard while somebody admitted is not queued. */
  ghost predicate LosesAtRemoval(c: Config, w: World) {
    RemovedUnheard(w, CLUSTER_ROLE) && !AllQueued(c, Begin(Begin(w)))
  }

  /** Removing the ClusterRole first wakes everybody, or finds everybody queued already. */
  lemma RemoveClusterRoleWakes(c: Config, w: World)
    requires Tame(w) && NoLostWakeup(c, w) && !LosesAtRemoval(c, w)
    ensures Tame(Remove(w, CLUSTER_ROLE).0) && NoLostWakeup(c, Remove(w, CLUSTER_ROLE).0)
    ensures Remove(w, CLUSTER_ROLE).1 == Done ==> AllQueued(c, Remove(w, CLUSTER_ROLE).0)
  {
    WakeupsSurviveBegin(c, w);
    var w1 := Begin(w);
    WakeupsSurviveBegin(c, w1);
    var w2 := Begin(w1);
    if CLUSTER_ROLE !in w1.objs {
      MissingMeansQueued(c, w1);
    }
    if CLUSTER_ROLE !in w2.objs {
      MissingMeansQueued(c, w2);
    } else if Get(w, CLUSTER_ROLE).1.Ok? && NextFault(w1) != Refused {
      RemovalAfterBegins(c, w2, NextNotified(w1));
    }
  }

  lemma RemovalAfterBegins(c: Config, w: World, notified: bool)
    requires Tame(w) && CLUSTER_ROLE in w.objs && (notified || AllQueued(c, w))
    ensures var v := SetObject(w, CLUSTER_ROLE, None, notified); Tame(v) && AllQueued(c, v) && NoLostWakeup(c, v)
  {
    var v := SetObject(w, CLUSTER_ROLE, None, notified);
    assert forall q :: LiveAdmitted(c, v, q) <==> LiveAdmitted(c, w, q);
  }

  /** A removal that goes unheard while somebody admitted is not queued loses a wake-up. */
  lemma UnheardRemovalLosesWakeup(c: Config, w: World)
    requires LosesAtRemoval(c, w)
    ensures !NoLostWakeup(c, Remove(w, CLUSTER_ROLE).0)
  {
    var w2 := Begin(Begin(w));
    var r :| LiveAdmitted(c, w2, r) && r !in w2.queue;
    var v := Remove(w, CLUSTER_ROLE).0;
    assert v.rms == w2.rms && v.namespaces == w2.namespaces && v.queue == w2.queue && CLUSTER_ROLE !in v.objs;
    assert LiveAdmitted(c, v, r) && !Safe(c, v, r);
  }

  /** The removal keeps the property exactly unless it does that. */
  lemma RemovalKeepsExactly(c: Config, w: World)
    requires Tame(w) && NoLostWakeup(c, w)
    ensures NoLostWakeup(c, Remove(w, CLUSTER_ROLE).0) <==> !LosesAtRemoval(c, w)
  {
    if LosesAtRemoval(c, w) {
      UnheardRemovalLosesWakeup(c, w);
    } else {
      RemoveClusterRoleWakes(c, w);
    }
  }

  lemma MissingMeansQueued(c: Config, w: World)
    requires NoLostWakeup(c, w) && CLUSTER_ROLE !in w.objs
    ensures AllQueued(c, w)
  {
    forall q | LiveAdmitted(c, w, q) ensures q in w.queue {
      assert Safe(c, w, q);
    }
  }

  lemma WakeupsSurviveBegin(c: Config, w: World)
    requires Tame(w) && NoLostWakeup(c, w)
    ensures Tame(Begin(w)) && NoLostWakeup(c, Begin(w))
  {
    BeginEvolves(c, w);
    forall q ensures Safe(c, Begin(w), q) {
      assert Safe(c, w, q);
      SafeEvolves(c, w, Begin(w), q);
    }
  }

  lemma CleanupKeeps(c: Config, w: World)
    requires Tame(w) && NoLostWakeup(c, w) && !LosesAtRemoval(c, w)
    ensures Tame(Cleanup(w).0) && NoLostWakeup(c, Cleanup(w).0)
  {
    RemoveClusterRoleWakes(c, w);
    var (w1, o) := Remove(w, CLUSTER_ROLE);
    assert CLUSTER_SCOPED[0] == CLUSTER_ROLE;
    if o == Done {
      RemoveKeepsAllQueued(c, w1, CLUSTER_SCOPED[1..]);
    }
  }

  // ----- The worker -----

  /** One turn of the single worker: take a request, reconcile, and put it back on failure. */
  function Work(c: Config, w: World, r: Request): World {
    if r !in w.queue then w
    else
      var (w1, o) := Reconcile(c, w.(queue := w.queue - {r}), r);
      if o == Done then w1 else w1.(queue := w1.queue + {r})
  }

  /** The world from which a request's reconcile cleans up, if it does. */
  function CleansFrom(w: World, r: Request): Option<World> {
    var (w1, terminating) := GetNamespace(w, r.ns);
    if terminating == Err(NotFound) then Some(w1)
    else if terminating != Ok(false) then None
    else
      var (w2, rm) := GetManager(w1, r);
      if rm == Err(NotFound) then Some(w2) else None
  }

  /** If the reconcile cleans up, the removal of the ClusterRole does not lose a wake-up. */
  ghost predicate Heard(c: Config, w: World, r: Request) {
    CleansFrom(w, r).Some? ==> !LosesAtRemoval(c, CleansFrom(w, r).value)
  }

  ghost predicate TurnHeard(c: Config, w: World, r: Request) {
    r in w.queue ==> Heard(c, w.(queue := w.queue - {r}), r)
  }

  lemma ReconcileKeeps(c: Config, w: World, r: Request)
    requires Tame(w) && !c.namespaceScoped && Heard(c, w, r)
    requires forall q | q != r :: Safe(c, w, q)
    ensures Tame(Reconcile(c, w, r).0)
    ensures forall q | q != r :: Safe(c, Reconcile(c, w, r).0, q)
    ensures Reconcile(c, w, r).1 == Done ==> Safe(c, Reconcile(c, w, r).0, r)
  {
    var v := Reconcile(c, w, r).0;
    BeginEvolves(c, w);
    var (w1, terminating) := GetNamespace(w, r.ns);
    forall q | q != r ensures Safe(c, w1, q) {
      SafeEvolves(c, w, w1, q);
    }
    if terminating == Err(NotFound) {
      assert Safe(c, w1, r);
      CleanupKeeps(c, w1);
    } else if terminating.Ok? && !terminating.value {
      BeginEvolves(c, w1);
      var (w2, rm) := GetManager(w1, r);
      forall q | q != r ensures Safe(c, w2, q) {
        SafeEvolves(c, w1, w2, q);
      }
      if rm == Err(NotFound) {
        assert Safe(c, w2, r);
        CleanupKeeps(c, w2);
      } else if rm.Ok? {
        ReconcileManagerEvolves(c, w2, r, rm.value);
        var (w3, res, o) := ReconcileManager(c, w2, r, rm.value);
        WriteResultEvolves(c, w3, r, rm.value, res, o);
        forall q | q != r || o == Done ensures Safe(c, v, q) {
          if q != r {
            SafeEvolves(c, w2, w3, q);
          }
          SafeEvolves(c, w3, v, q);
        }
      }
    }
  }

  lemma WorkKeeps(c: Config, w: World, r: Request)
    requires Tame(w) && !c.namespaceScoped && NoLostWakeup(c, w) && TurnHeard(c, w, r)
    ensures Tame(Work(c, w, r)) && NoLostWakeup(c, Work(c, w, r))
  {
    if r in w.queue {
      var popped := w.(queue := w.queue - {r});
      forall q | q != r ensures Safe(c, popped, q) {
        assert Safe(c, w, q);
        assert LiveAdmitted(c, popped, q) <==> LiveAdmitted(c, w, q);
      }
      ReconcileKeeps(c, popped, r);
      var (w1, o) := Reconcile(c, popped, r);
      var v := Work(c, w, r);
      forall q ensures Safe(c, v, q) {
        assert LiveAdmitted(c, v, q) <==> LiveAdmitted(c, w1, q);
        assert q != r || o == Done ==> Safe(c, w1, q);
      }
    }
  }

  // ----- Runs -----

  datatype Action = Outside(e: Event) | Process(r: Request)

  function Run(c: Config, w: World, actions: seq<Action>): World
    decreases |actions|
  {
    if actions == [] then w else Run(c, Next(c, w, actions[0]), actions[1..])
  }

  function Next(c: Config, w: World, a: Action): World {
    match a
    case Outside(e) => ApplyChange(w, e.change, e.notified)
    case Process(r) => Work(c, w, r)
  }

  /** No outside change is harmful, and no cleanup removes the ClusterRole unheard while somebody
      admitted is not queued. */
  ghost predicate Harmless(c: Config, w: World, actions: seq<Action>)
    decreases |actions|
  {
    actions == [] ||
    ((match actions[0] case Outside(e) => !Harmful(e) case Process(r) => TurnHeard(c, w, r)) &&
     Harmless(c, Next(c, w, actions[0]), actions[1..]))
  }

  /** Such a run never loses a wake-up. */
  lemma {:induction false} NoRunLosesWakeup(c: Config, w: World, actions: seq<Action>)
    requires !c.namespaceScoped && Tame(w) && NoLostWakeup(c, w) && Harmless(c, w, actions)
    ensures NoLostWakeup(c, Run(c, w, actions))
    decreases |actions|
  {
    if actions != [] {
      var v := Next(c, w, actions[0]);
      match actions[0]
      case Outside(e) =>
        ChangeEvolves(c, w, e);
        EvolvesKeeps(c, w, v);
        NoRunLosesWakeup(c, v, actions[1..]);
      case Process(r) =>
        WorkKeeps(c, w, r);
        NoRunLosesWakeup(c, v, actions[1..]);
    }
  }

  lemma EvolvesKeeps(c: Config, w: World, v: World)
    requires Evolves(c, w, v) && NoLostWakeup(c, w)
    ensures NoLostWakeup(c, v)
  {
    forall q ensures Safe(c, v, q) {
      assert Safe(c, w, q);
      SafeEvolves(c, w, v, q);
    }
  }

  /** Nor does one from the initial listing, at which every RolloutManager is queued. */
  lemma NothingIsLostFromStart(c: Config, w: World, actions: seq<Action>)
    requires !c.namespaceScoped && Tame(w) && w.rms.Keys <= w.queue && Harmless(c, w, actions)
    ensures NoLostWakeup(c, Run(c, w, actions))
  {
    NoRunLosesWakeup(c, w, actions);
  }

  // ----- The harmful changes are harmful -----

  const PLAIN_SPEC := Spec(false, None, [], [], "", "", "", None, None, false, [], [], None, None)
  const PLAIN_MANAGER := RolloutManager(PLAIN_SPEC, NEW_STATUS)

  lemma SomeNamespaceIsAllowed(c: Config) returns (ns: string)
    ensures AllowedNamespace(c, ns)
  {
    ns := SplitList(c.clusterScopedNamespaces)[0];
  }

  lemma AloneIsAdmitted(c: Config, w: World, q: Request)
    requires !c.namespaceScoped && AllowedNamespace(c, q.ns) && w.NamespaceIsLive(q.ns)
    requires q in w.rms && w.rms[q] == PLAIN_MANAGER && forall p | p in w.rms && p != q :: w.rms[p].spec.namespaceScoped
    ensures LiveAdmitted(c, w, q)
  {
  }

  /** Two cluster-scoped RolloutManagers keep each other out. */
  lemma RivalsAreTurnedAway(c: Config, w: World, q: Request, r: Request)
    requires !c.namespaceScoped && q != r && w.rms == map[q := PLAIN_MANAGER, r := PLAIN_MANAGER]
    ensures NoLostWakeup(c, w)
  {
    forall p ensures Safe(c, w, p) {
      if p in w.rms {
        assert (if p == q then r else q) in w.rms;
      }
    }
  }

  /** A world in which a rival's going leaves somebody admissible whom nobody tells. */
  lemma RivalGone(c: Config, r: Request) returns (w: World, q: Request)
    requires !c.namespaceScoped
    ensures q != r && w.rms == map[q := PLAIN_MANAGER, r := PLAIN_MANAGER] && w.queue == {} && w.objs == map[]
    ensures NamespacesExist(w) && NoLostWakeup(c, w) && w.NamespaceIsLive(q.ns) && AllowedNamespace(c, q.ns)
  {
    var ns := SomeNamespaceIsAllowed(c);
    q := Request(ns, r.name + "x");
    assert |q.name| != |r.name|;
    w := World(map[], map[q := PLAIN_MANAGER, r := PLAIN_MANAGER], map[r.ns := false, ns := false], [], {}, 0, []);
    RivalsAreTurnedAway(c, w, q, r);
  }

  /** A world in which one RolloutManager has all five objects and is not queued. */
  lemma OneAtRest(c: Config) returns (w: World, q: Request)
    requires !c.namespaceScoped
    ensures LiveAdmitted(c, w, q) && w.queue == {} && HasAllFive(w) && NamespacesExist(w) && NoLostWakeup(c, w)
  {
    var ns := SomeNamespaceIsAllowed(c);
    q := Request(ns, "");
    var o := Obj(Metadata.BARE_META, Bare);
    var objs := map[CLUSTER_ROLE := o, CLUSTER_ROLE_BINDING := o, AggregateKey(Admin) := o, AggregateKey(Edit) := o,
                    AggregateKey(View) := o];
    w := World(objs, map[q := PLAIN_MANAGER], map[ns := false], [], {}, 0, []);
    AloneIsAdmitted(c, w, q);
  }

  lemma AggregatesWakeNobody(k: Key)
    requires IsAggregate(k)
    ensures !WakesEveryone(k)
  {
    assert |AggregateName(Admin)| > |RESOURCE_NAME| && |AggregateName(Edit)| > |RESOURCE_NAME|;
    assert |AggregateName(View)| > |RESOURCE_NAME|;
  }

  /** For every harmful change there is a world in which it loses a wake-up. */
  lemma HarmfulLosesWakeup(c: Config, e: Event) returns (w: World)
    requires !c.namespaceScoped && Harmful(e)
    ensures NamespacesExist(w) && NoLostWakeup(c, w) && !NoLostWakeup(c, ApplyChange(w, e.change, e.notified))
  {
    var q: Request;
    match e.change
    case RemoveObject(k) =>
      w, q := OneAtRest(c);
      if IsAggregate(k) {
        AggregatesWakeNobody(k);
      }
      var v := ApplyChange(w, e.change, e.notified);
      assert LiveAdmitted(c, v, q) && !Safe(c, v, q);
    case DeleteManager(r) =>
      w, q := RivalGone(c, r);
      var v := ApplyChange(w, e.change, e.notified);
      AloneIsAdmitted(c, v, q);
      assert !Safe(c, v, q);
    case ChangeSpec(r, spec) =>
      w, q := RivalGone(c, r);
      var v := ApplyChange(w, e.change, e.notified);
      AloneIsAdmitted(c, v, q);
      assert !Safe(c, v, q);
  }

  lemma HarmlessKeeps(c: Config, w: World, e: Event)
    requires NamespacesExist(w) && NoLostWakeup(c, w) && !Harmful(e)
    ensures NoLostWakeup(c, ApplyChange(w, e.change, e.notified))
  {
    ChangeEvolves(c, w, e);
    EvolvesKeeps(c, w, ApplyChange(w, e.change, e.notified));
  }

  /** An outside change keeps the property in every world exactly when it is not harmful. */
  lemma HarmfulExactly(c: Config, e: Event)
    requires !c.namespaceScoped
    ensures (forall w | NamespacesExist(w) && NoLostWakeup(c, w) ::
             NoLostWakeup(c, ApplyChange(w, e.change, e.notified)))
            <==> !Harmful(e)
  {
    if Harmful(e) {
      var w := HarmfulLosesWakeup(c, e);
    } else {
      forall w | NamespacesExist(w) && NoLostWakeup(c, w)
        ensures NoLostWakeup(c, ApplyChange(w, e.change, e.notified))
      {
        HarmlessKeeps(c, w, e);
      }
    }
  }

  /** An outsider who deletes an aggregate role wakes nobody: the watch filters it out by name. */
  lemma AggregateDeletionLosesWakeup(c: Config, w: World, r: Request, a: Aggregation)
    requires NoLostWakeup(c, w) && LiveAdmitted(c, w, r) && r !in w.queue
    ensures !NoLostWakeup(c, ApplyChange(w, RemoveObject(AggregateKey(a)), true))
  {
    var v := ApplyChange(w, RemoveObject(AggregateKey(a)), true);
    AggregatesWakeNobody(AggregateKey(a));
    assert LiveAdmitted(c, v, r) && !Safe(c, v, r);
  }
}
