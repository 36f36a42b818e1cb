/** The clean-up: what is gone when a request turns out to be for a RolloutManager, or a namespace,
    that no longer exists. */
module Cleanups {
  import opened GoTypes
  import opened RolloutManagers
  import opened Metadata
  import opened Cluster
  import opened Operator
  import opened Traces

  /** The five cluster-scoped objects, which no RolloutManager can own. */
  function ClusterScopedKeys(): set<Key> {
    {Key(ClusterRole, "", "argo-rollouts"), Key(ClusterRole, "", "argo-rollouts-aggregate-to-admin"),
     Key(ClusterRole, "", "argo-rollouts-aggregate-to-edit"), Key(ClusterRole, "", "argo-rollouts-aggregate-to-view"),
     Key(ClusterRoleBinding, "", "argo-rollouts")}
  }

  /** They are gone if all went well; nothing else is touched in any case. */
  ghost predicate CleanedUp(w: World, v: World, o: Outcome) {
    (o == Done ==> forall k | k in ClusterScopedKeys() :: k !in v.objs) && Keeps(w, v, ClusterScopedKeys()) &&
    v.pods == w.pods && w.queue <= v.queue
  }

  /** Removing one object, whichever calls fail. */
  lemma Removed(w: World, k: Key)
    requires Calm(w)
    ensures var (v, o) := Remove(w, k);
            Keeps(w, v, {k}) && (o == Done ==> k !in v.objs) && v.pods == w.pods && w.queue <= v.queue &&
            (k !in w.objs ==> k !in v.objs)
  {
    CalmBegin(w);
    CalmBegin(Begin(w));
  }

  lemma {:induction false} AllRemoved(w: World, keys: seq<Key>)
    requires Calm(w)
    ensures var (v, o) := RemoveAll(w, keys);
            Keeps(w, v, set k | k in keys) && (o == Done ==> forall k | k in keys :: k !in v.objs) &&
            v.pods == w.pods && w.queue <= v.queue && forall k | k !in w.objs :: k !in v.objs
    decreases |keys|
  {
    if keys != [] {
      Removed(w, keys[0]);
      var (w1, o) := Remove(w, keys[0]);
      forall k | k !in w.objs ensures k !in w1.objs {
        assert k != keys[0] ==> w1.Lookup(k) == w.Lookup(k);
      }
      if o == Done {
        AllRemoved(w1, keys[1..]);
      }
    }
  }

  lemma AggregatesByName()
    ensures AggregateKey(Admin) == Key(ClusterRole, "", "argo-rollouts-aggregate-to-admin")
    ensures AggregateKey(Edit) == Key(ClusterRole, "", "argo-rollouts-aggregate-to-edit")
    ensures AggregateKey(View) == Key(ClusterRole, "", "argo-rollouts-aggregate-to-view")
  {
    AggregateByName("aggregate-to-admin", "argo-rollouts-aggregate-to-admin");
    AggregateByName("aggregate-to-edit", "argo-rollouts-aggregate-to-edit");
    AggregateByName("aggregate-to-view", "argo-rollouts-aggregate-to-view");
  }

  lemma AggregateByName(name: string, whole: string)
    requires |whole| > 14 && whole[..13] == RESOURCE_NAME && whole[13] == '-' && whole[14..] == name
    ensures RESOURCE_NAME + "-" + name == whole
  {
  }

  lemma RemovedKeysAreTheFive()
    ensures forall k :: k in CLUSTER_SCOPED <==> k in ClusterScopedKeys()
  {
    AggregatesByName();
    var five := CLUSTER_SCOPED;
    assert five == [five[0], five[1], five[2], five[3], five[4]];
  }

  /** A finished clean-up leaves none of the five, whichever calls failed before. */
  lemma CleanupRemoves(w: World)
    requires Calm(w)
    ensures CleanedUp(w, Cleanup(w).0, Cleanup(w).1)
  {
    AllRemoved(w, CLUSTER_SCOPED);
    RemovedKeysAreTheFive();
    assert (set k | k in CLUSTER_SCOPED) == ClusterScopedKeys();
  }

  lemma CleanedUpLater(w: World, u: World, v: World, o: Outcome)
    requires CleanedUp(u, v, o)
    requires u.objs == w.objs && u.rms == w.rms && u.namespaces == w.namespaces && u.pods == w.pods &&
             u.queue == w.queue
    ensures CleanedUp(w, v, o)
  {
    forall k | k !in ClusterScopedKeys() ensures v.Lookup(k) == w.Lookup(k) {
      assert u.Lookup(k) == w.Lookup(k);
    }
  }

  /** So does every finished reconcile for a RolloutManager that is gone, or whose namespace is. */
  lemma MissingManagerIsCleanedUp(c: Config, w: World, r: Request)
    requires Calm(w) && (r.ns !in w.namespaces || (!w.namespaces[r.ns] && r !in w.rms))
    ensures CleanedUp(w, Reconcile(c, w, r).0, Reconcile(c, w, r).1)
  {
    var u := Begin(w);
    CalmBegin(w);
    if NextFault(w) == NoFault {
      if r.ns !in w.namespaces {
        CleanupRemoves(u);
        CleanedUpLater(w, u, Cleanup(u).0, Cleanup(u).1);
      } else {
        CalmBegin(u);
        if NextFault(u) == NoFault {
          CleanupRemoves(Begin(u));
          CleanedUpLater(w, Begin(u), Cleanup(Begin(u)).0, Cleanup(Begin(u)).1);
        }
      }
    }
  }

  /** In a namespace that is going away nothing is cleaned up, or done at all. */
  lemma TerminatingNamespaceIsLeftAlone(c: Config, w: World, r: Request)
    requires Calm(w) && r.ns in w.namespaces && w.namespaces[r.ns]
    ensures Reconcile(c, w, r).0 == Begin(w) && Begin(w) == w.(schedule := Begin(w).schedule, now := Begin(w).now)
    ensures Reconcile(c, w, r).1 == Done <==> NextFault(w) == NoFault
  {
    CalmBegin(w);
  }

  // ----- Outsiders who clean up too -----

  /** No call fails, whatever outsiders do between the calls. */
  ghost predicate Reliable(w: World) {
    forall t | t in w.schedule :: t.fault == NoFault
  }

  lemma {:induction false} EventsKeepSchedule(w: World, events: seq<Event>)
    ensures ApplyAll(w, events).schedule == w.schedule
    decreases |events|
  {
    if events != [] {
      EventsKeepSchedule(ApplyChange(w, events[0].change, events[0].notified), events[1..]);
    }
  }

  lemma ReliableBegin(w: World)
    requires Reliable(w)
    ensures Reliable(Begin(w)) && NextFault(w) == NoFault
  {
    if !w.Quiet() {
      EventsKeepSchedule(w.(schedule := w.schedule[1..], now := w.now + w.schedule[0].elapsed), w.schedule[0].outside);
    }
  }

  /** An object that somebody else removes between the Get and the Delete is as good as removed. */
  lemma RemovalSucceeds(w: World, k: Key)
    requires Reliable(w)
    ensures Reliable(Remove(w, k).0) && Remove(w, k).1 == Done && k !in Remove(w, k).0.objs
  {
    ReliableBegin(w);
    ReliableBegin(Begin(w));
  }

  lemma {:induction false} RemovalsSucceed(w: World, keys: seq<Key>)
    requires Reliable(w)
    ensures RemoveAll(w, keys).1 == Done
    decreases |keys|
  {
    if keys != [] {
      RemovalSucceeds(w, keys[0]);
      RemovalsSucceed(Remove(w, keys[0]).0, keys[1..]);
    }
  }

  /** No outsider can make a clean-up fail. */
  lemma CleanupSucceeds(w: World)
    requires Reliable(w)
    ensures Cleanup(w).1 == Done
  {
    RemovalsSucceed(w, CLUSTER_SCOPED);
  }
}
