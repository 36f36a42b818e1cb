/** The watches: whom each change wakes, and that in cluster-scoped mode no RolloutManager that is
    not settled is ever forgotten, whatever outsiders change, as long as the watches hear of it. */
module Watches {
  import opened GoTypes
  import opened RolloutManagers
  import opened Metadata
  import opened Statuses
  import opened Cluster
  import opened Operator
  import opened Settling
  import opened Fixpoint
  import opened Wakeups
  import opened Progress
  import opened Draining
  import opened Cleanups

  // ----- Whom a change wakes -----

  /** The seven objects in a RolloutManager's namespace that are watched on behalf of their owner. */
  predicate IsWatchedFor(r: Request, k: Key) {
    k == Key(NetworkPolicy, r.ns, "argo-rollouts-network-policy") ||
    k == Key(ConfigMap, r.ns, "argo-rollouts-config") ||
    k == Key(Secret, r.ns, "argo-rollouts-notification-secret") ||
    k == Key(Service, r.ns, "argo-rollouts-metrics") ||
    k == Key(DeploymentKind, r.ns, "argo-rollouts") ||
    k == Key(Role, r.ns, "argo-rollouts") ||
    k == Key(RoleBinding, r.ns, "argo-rollouts")
  }

  /** The two cluster-scoped objects that are watched on behalf of everybody. */
  predicate IsWatchedForAll(k: Key) {
    k == Key(ClusterRole, "", "argo-rollouts") || k == Key(ClusterRoleBinding, "", "argo-rollouts")
  }

  /** What a reconcile drives although no watch tells of it. */
  predicate IsUnwatched(r: Request, k: Key) {
    k == Key(ServiceAccount, r.ns, "argo-rollouts") ||
    k == Key(ClusterRole, "", "argo-rollouts-aggregate-to-admin") ||
    k == Key(ClusterRole, "", "argo-rollouts-aggregate-to-edit") ||
    k == Key(ClusterRole, "", "argo-rollouts-aggregate-to-view")
  }

  predicate BelongsTo(o: Option<Obj>, r: Request) {
    o.Some? && o.value.meta.owner == Some(Owner(true, r.name))
  }

  /** An outsider puts or removes an object: its controller owner is woken, the one it had and the
      one it has now; and nobody else is. */
  lemma OwnerIsWoken(w: World, e: Event, k: Key, r: Request)
    requires IsWatchedFor(r, k) && (e.change == RemoveObject(k) || (e.change.PutObject? && e.change.key == k))
    ensures var v := ApplyChange(w, e.change, e.notified);
            r in v.queue <==>
            r in w.queue || (v.Lookup(k) != w.Lookup(k) && (BelongsTo(w.Lookup(k), r) || BelongsTo(v.Lookup(k), r)))
  {
  }

  /** A change of one of the two shared objects wakes everybody if the handler can list them. */
  lemma EverybodyIsWoken(w: World, e: Event, k: Key)
    requires IsWatchedForAll(k) && (e.change == RemoveObject(k) || (e.change.PutObject? && e.change.key == k))
    ensures var v := ApplyChange(w, e.change, e.notified);
            v.queue == w.queue + if v.Lookup(k) != w.Lookup(k) && e.notified then w.rms.Keys else {}
  {
  }

  /** A change of what no watch covers wakes nobody. */
  lemma NobodyIsWoken(w: World, e: Event, k: Key, r: Request)
    requires IsUnwatched(r, k) && (e.change == RemoveObject(k) || (e.change.PutObject? && e.change.key == k))
    ensures ApplyChange(w, e.change, e.notified).queue == w.queue
  {
    if k.kind == ClusterRole {
      assert |k.name| > |RESOURCE_NAME|;
    }
  }

  /** A RolloutManager that appears, goes or gets another spec is woken; so are all others if the
      handler can list them. */
  lemma ManagersAreWoken(w: World, e: Event, r: Request)
    requires e.change.CreateManager? || e.change.DeleteManager? || e.change.ChangeSpec?
    requires e.change.r == r
    ensures var v := ApplyChange(w, e.change, e.notified);
            v.rms != w.rms ==>
              v.queue == w.queue + {r} + if e.notified then w.rms.Keys else {}
  {
  }

  /** A status that is written wakes its own RolloutManager, and one that is as it was wakes nobody. */
  lemma StatusWriteWakes(w: World, r: Request, status: Status)
    requires w.Quiet() && r in w.rms
    ensures var v := UpdateStatus(w, r, w.rms[r], status).0;
            v.queue == w.queue + if v.rms[r].status != w.rms[r].status then {r} else {}
    ensures UpdateStatus(w, r, w.rms[r], status).0.rms == w.rms[r := w.rms[r].(status := status)]
  {
  }

  // ----- What is heard of -----

  predicate IsDriven(r: Request, k: Key) {
    IsWatchedFor(r, k) || IsWatchedForAll(k) || IsUnwatched(r, k)
  }

  /** The keys a stage looks at are among these thirteen. */
  lemma FootprintsAreNamed(r: Request, s: Stage)
    ensures forall k | k in Footprint(r, s) :: IsDriven(r, k)
  {
    AggregatesByName();
    KeysAreNamed(r, s);
    match OppositeKey(r, s)
    case None => assert Footprint(r, s) == {KeyOf(r, s)};
    case Some(k) => assert Footprint(r, s) == {KeyOf(r, s), k};
  }

  lemma KeysAreNamed(r: Request, s: Stage)
    ensures IsDriven(r, KeyOf(r, s)) && (OppositeKey(r, s).Some? ==> IsDriven(r, OppositeKey(r, s).value))
  {
    if s.AggregateStage? {
      AggregatesByName();
    }
  }

  /** No RolloutManager that is carried out depends on the object, or a watch tells it. */
  ghost predicate ObjectHeard(c: Config, w: World, k: Key, after: Option<Obj>, notified: bool) {
    forall r | LiveAdmitted(c, w, r) ::
      (IsWatchedFor(r, k) ==> BelongsTo(w.Lookup(k), r) || BelongsTo(after, r)) &&
      (IsWatchedForAll(k) ==> notified) && !IsUnwatched(r, k)
  }

  ghost predicate Heard(c: Config, w: World, e: Event) {
    match e.change
    case PutObject(k, obj) => w.Lookup(k) == Some(obj) || ObjectHeard(c, w, k, Some(obj), e.notified)
    case RemoveObject(k) => k !in w.objs || ObjectHeard(c, w, k, None, e.notified)
    case CreateManager(_, _) => e.notified
    case DeleteManager(_) => e.notified
    case ChangeSpec(_, _) => e.notified
    case _ => true
  }

  // ----- Outside changes -----

  lemma ObjectKeepsQueued(c: Config, w: World, k: Key, after: Option<Obj>, notified: bool)
    requires UnsettledQueued(c, w) && (w.Lookup(k) == after || ObjectHeard(c, w, k, after, notified))
    ensures UnsettledQueued(c, SetObject(w, k, after, notified))
  {
    var v := SetObject(w, k, after, notified);
    forall q | q in v.rms && !ManagerSettled(c, v, q) ensures q in v.queue {
      if !ManagerSettled(c, w, q) {
        assert q in Unsettled(c, w);
      } else if w.Lookup(k) != after {
        ObjectMatters(c, w, v, k, q);
        WokenByObject(w, k, after, notified, q);
      } else {
        SameObjects(w, v, k);
      }
    }
  }

  lemma SameObjects(w: World, v: World, k: Key)
    requires v.Lookup(k) == w.Lookup(k) && forall l | l != k :: v.Lookup(l) == w.Lookup(l)
    ensures v.objs == w.objs
  {
    forall l ensures (l in v.objs <==> l in w.objs) && (l in v.objs ==> v.objs[l] == w.objs[l]) {
      assert v.Lookup(l) == w.Lookup(l);
    }
  }

  lemma WokenByObject(w: World, k: Key, after: Option<Obj>, notified: bool, q: Request)
    requires q in w.rms && w.Lookup(k) != after
    requires (IsWatchedFor(q, k) && (BelongsTo(w.Lookup(k), q) || BelongsTo(after, q))) ||
             (IsWatchedForAll(k) && notified)
    ensures q in SetObject(w, k, after, notified).queue
  {
    var e := Event(if after.None? then RemoveObject(k) else PutObject(k, after.value), notified);
    assert ApplyChange(w, e.change, e.notified) == SetObject(w, k, after, notified);
    assert SetObject(w, k, after, notified).Lookup(k) == after;
    if IsWatchedFor(q, k) {
      OwnerIsWoken(w, e, k, q);
    } else {
      EverybodyIsWoken(w, e, k);
    }
  }

  /** An object that unsettles a RolloutManager is one that it drives. */
  lemma ObjectMatters(c: Config, w: World, v: World, k: Key, q: Request)
    requires q in w.rms && v == w.(objs := v.objs, queue := v.queue) && forall l | l != k :: v.Lookup(l) == w.Lookup(l)
    requires ManagerSettled(c, w, q) && !ManagerSettled(c, v, q)
    ensures LiveAdmitted(c, w, q) && IsDriven(q, k)
  {
    if !IsDriven(q, k) && Verdict(c, w.rms, q).None? && w.NamespaceIsLive(q.ns) {
      AdmittedElsewhere(c, w, v, k, q, w.rms[q]);
    }
  }

  lemma AdmittedElsewhere(c: Config, w: World, v: World, k: Key, q: Request, rm: RolloutManager)
    requires !IsDriven(q, k) && forall l | l != k :: v.Lookup(l) == w.Lookup(l)
    requires AdmittedSettled(c, q, rm, w.objs)
    ensures AdmittedSettled(c, q, rm, v.objs)
  {
    forall s | s in Pipeline(rm.spec) ensures StageSettled(c, q, rm.spec, s, v.objs) {
      FootprintsAreNamed(q, s);
      forall l | l in Footprint(q, s) ensures v.Lookup(l) == w.Lookup(l) {
      }
      SettledIsLocal(c, q, rm.spec, s, w.objs, v.objs);
    }
    KeysAreNamed(q, DeploymentStage);
    assert v.Lookup(KeyOf(q, DeploymentStage)) == w.Lookup(KeyOf(q, DeploymentStage));
  }

  /** Whoever is unsettled by the coming, going or change of a RolloutManager was told. */
  lemma ManagersKeepQueued(c: Config, w: World, e: Event)
    requires UnsettledQueued(c, w) && e.notified
    requires e.change.CreateManager? || e.change.DeleteManager? || e.change.ChangeSpec?
    ensures UnsettledQueued(c, ApplyChange(w, e.change, e.notified))
  {
    var v := ApplyChange(w, e.change, e.notified);
    ManagersAreWoken(w, e, e.change.r);
    if v.rms == w.rms {
      assert v == w;
    }
  }

  lemma NamespacesKeepQueued(c: Config, w: World, v: World)
    requires NamespacesExist(w) && UnsettledQueued(c, w) && v == w.(namespaces := v.namespaces, pods := v.pods)
    requires forall r | r in w.rms :: v.NamespaceIsLive(r.ns) ==> w.NamespaceIsLive(r.ns)
    ensures UnsettledQueued(c, v)
  {
    forall q | q in v.rms && !ManagerSettled(c, v, q) ensures q in v.queue {
      assert q in Unsettled(c, w);
    }
  }

  /** After an outside change that is heard of, still everybody who is not settled is queued. */
  lemma ChangeKeepsQueued(c: Config, w: World, e: Event)
    requires NamespacesExist(w) && UnsettledQueued(c, w) && Heard(c, w, e)
    ensures NamespacesExist(ApplyChange(w, e.change, e.notified))
    ensures UnsettledQueued(c, ApplyChange(w, e.change, e.notified))
  {
    var v := ApplyChange(w, e.change, e.notified);
    match e.change
    case PutObject(k, obj) => ObjectKeepsQueued(c, w, k, Some(obj), e.notified);
    case RemoveObject(k) => ObjectKeepsQueued(c, w, k, None, e.notified);
    case CreateManager(_, _) => ManagersKeepQueued(c, w, e);
    case DeleteManager(_) => ManagersKeepQueued(c, w, e);
    case ChangeSpec(_, _) => ManagersKeepQueued(c, w, e);
    case _ => NamespacesKeepQueued(c, w, v);
  }

  // ----- Turns of the worker -----

  lemma CleanupForgetsNobody(c: Config, w: World, r: Request)
    requires w.Quiet() && NamespacesExist(w) && !c.namespaceScoped && UnsettledQueued(c, w) && r !in w.rms
    ensures UnsettledQueued(c, Cleanup(Popped(w, r)).0)
  {
    CleanupLands(Popped(w, r));
    CleanupKeepsQueued(c, w, r, Cleanup(Popped(w, r)).0);
  }

  lemma PoppedKeepsQueued(c: Config, w: World, r: Request)
    requires UnsettledQueued(c, w) && (r in w.rms ==> ManagerSettled(c, w, r))
    ensures UnsettledQueued(c, Popped(w, r))
  {
    var v := Popped(w, r);
    forall q | q in v.rms && !ManagerSettled(c, v, q) ensures q in v.queue {
      assert !ManagerSettled(c, w, q) && q in Unsettled(c, w);
    }
  }

  lemma MissingForgetsNobody(c: Config, w: World, r: Request)
    requires w.Quiet() && NamespacesExist(w) && !c.namespaceScoped && UnsettledQueued(c, w)
    requires r in w.queue && r !in w.rms
    ensures UnsettledQueued(c, Work(c, w, r))
    ensures Work(c, w, r).Quiet() && SameManagers(w, Work(c, w, r))
  {
    CleanupLands(Popped(w, r));
    CleanupForgetsNobody(c, w, r);
    PoppedKeepsQueued(c, w, r);
  }

  lemma RejectedForgetsNobody(c: Config, w: World, r: Request)
    requires w.Quiet() && NamespacesExist(w) && !c.namespaceScoped && UnsettledQueued(c, w)
    requires r in w.queue && r in w.rms && !ManagerSettled(c, w, r) && Verdict(c, w.rms, r).Some?
    ensures UnsettledQueued(c, Work(c, w, r)) && OnlyStatus(w, Work(c, w, r), r)
  {
    var p := Popped(w, r);
    RejectionSettles(c, p, r);
    SettlingTurn(c, w, r, Reconcile(c, p, r).0);
  }

  lemma AdmittedForgetsNobody(c: Config, w: World, r: Request)
    requires w.Quiet() && NamespacesExist(w) && !c.namespaceScoped && UnsettledQueued(c, w)
    requires r in w.queue && LiveAdmitted(c, w, r) && !ManagerSettled(c, w, r)
    ensures UnsettledQueued(c, Work(c, w, r)) && OnlyStatus(w, Work(c, w, r), r)
  {
    var p := Popped(w, r);
    if Staged(c, p, r, w.rms[r]).1 == Done {
      AdmissionSettles(c, p, r);
      StagedSettles(c, p, r, w.rms[r]);
      SettlingTurn(c, w, r, Reconcile(c, p, r).0);
    } else {
      FailureKeepsQueue(c, p, r);
      PanicKeepsQueued(c, w, Work(c, w, r), r);
    }
  }

  /** A reconcile whose stages do not finish is not done, and takes no request from the queue. */
  lemma FailureKeepsQueue(c: Config, w: World, r: Request)
    requires w.Quiet() && LiveAdmitted(c, w, r) && Staged(c, w, r, w.rms[r]).1 != Done
    ensures var (v, o) := Reconcile(c, w, r); o != Done && OnlyStatus(w, v, r) && w.queue <= v.queue
  {
    var rm := w.rms[r];
    ManagerByVerdict(c, w, r);
    AdmittedResult(c, w, r, rm);
    var (w1, res, o) := RunAdmitted(c, w, r, rm);
    assert w.rms[r := rm] == w.rms;
    if o != Panicked {
      WriteResultLands(w1, r, rm, res, o);
    }
  }

  lemma WorkForgetsNobody(c: Config, w: World, r: Request)
    requires w.Quiet() && NamespacesExist(w) && !c.namespaceScoped && UnsettledQueued(c, w)
    ensures var v := Work(c, w, r); v.Quiet() && NamespacesExist(v) && UnsettledQueued(c, v) && SameManagers(w, v)
  {
    var p := Popped(w, r);
    if r !in w.queue {
    } else if r !in w.rms {
      MissingForgetsNobody(c, w, r);
    } else if ManagerSettled(c, w, r) {
      assert ManagerSettled(c, p, r);
      SettledIsIdle(c, p, r);
      PoppedKeepsQueued(c, w, r);
    } else if Verdict(c, w.rms, r).Some? {
      RejectedForgetsNobody(c, w, r);
    } else {
      AdmittedForgetsNobody(c, w, r);
    }
  }

  // ----- Runs -----

  ghost predicate AllHeard(c: Config, w: World, actions: seq<Action>)
    decreases |actions|
  {
    actions == [] ||
    ((actions[0].Outside? ==> Heard(c, w, actions[0].e)) && AllHeard(c, Next(c, w, actions[0]), actions[1..]))
  }

  /** Over every run of turns and outside changes that are heard of, when no call fails: whoever is
      not settled is queued, however the turns end and whether or not anything can be carried out. */
  lemma {:induction false} NobodyIsForgotten(c: Config, w: World, actions: seq<Action>)
    requires w.Quiet() && NamespacesExist(w) && !c.namespaceScoped && UnsettledQueued(c, w) && AllHeard(c, w, actions)
    ensures var v := Run(c, w, actions); v.Quiet() && NamespacesExist(v) && UnsettledQueued(c, v)
    decreases |actions|
  {
    if actions != [] {
      match actions[0]
      case Outside(e) =>
        ChangeKeepsQueued(c, w, e);
        ChangeStaysQuiet(w, e);
        NobodyIsForgotten(c, Next(c, w, actions[0]), actions[1..]);
      case Process(r) =>
        WorkForgetsNobody(c, w, r);
        NobodyIsForgotten(c, Next(c, w, actions[0]), actions[1..]);
    }
  }

  lemma ChangeStaysQuiet(w: World, e: Event)
    ensures ApplyChange(w, e.change, e.notified).schedule == w.schedule
  {
  }

  /** An empty queue is proof that nothing is left to do: whenever such a run empties it, every
      reconcile would change nothing. */
  lemma EmptyQueueMeansSettled(c: Config, w: World, actions: seq<Action>)
    requires w.Quiet() && NamespacesExist(w) && !c.namespaceScoped && UnsettledQueued(c, w) && AllHeard(c, w, actions)
    requires Run(c, w, actions).queue == {}
    ensures var v := Run(c, w, actions); forall r | r in v.rms :: Reconcile(c, v, r) == (v, Done)
  {
    NobodyIsForgotten(c, w, actions);
    DrainedIsSettled(c, Run(c, w, actions));
  }

  // ----- What is not heard of -----

  /** Removing what no watch covers, or a watched object that names no owner, unsettles the
      RolloutManager and tells nobody.  The ConfigMap the operator creates is such an object. */
  lemma UnheardRemoval(c: Config, w: World, r: Request, k: Key, notified: bool)
    requires LiveAdmitted(c, w, r) && ManagerSettled(c, w, r) && r !in w.queue
    requires IsUnwatched(r, k) ||
             (k == Key(ConfigMap, r.ns, "argo-rollouts-config") && k in w.objs && w.objs[k].meta.owner.None?)
    ensures var v := ApplyChange(w, RemoveObject(k), notified); r !in v.queue && !ManagerSettled(c, v, r)
  {
    var v := ApplyChange(w, RemoveObject(k), notified);
    if IsUnwatched(r, k) {
      NobodyIsWoken(w, Event(RemoveObject(k), notified), k, r);
    } else {
      OwnerIsWoken(w, Event(RemoveObject(k), notified), k, r);
    }
    var s := StageFor(r, k, w.rms[r].spec);
    assert LiveAdmitted(c, v, r) && !StageSettled(c, r, w.rms[r].spec, s, v.objs);
  }

  lemma StageFor(r: Request, k: Key, spec: Spec) returns (s: Stage)
    requires IsUnwatched(r, k) || k == Key(ConfigMap, r.ns, "argo-rollouts-config")
    ensures s in Pipeline(spec) && KeyOf(r, s) == k
    ensures s.ServiceAccountStage? || s.AggregateStage? || s.ConfigMapStage?
  {
    var stages := Pipeline(spec);
    AggregatesByName();
    assert stages[0] == ServiceAccountStage && stages[2] == AggregateStage(Admin) && stages[3] == AggregateStage(Edit);
    assert stages[4] == AggregateStage(View) && stages[7] == ConfigMapStage;
    s := if k.kind == ServiceAccount then ServiceAccountStage
         else if k.kind == ConfigMap then ConfigMapStage
         else if k == AggregateKey(Admin) then AggregateStage(Admin)
         else if k == AggregateKey(Edit) then AggregateStage(Edit)
         else AggregateStage(View);
  }
}
