/** The notification Secret: it comes and goes with the skip flag, and one that belongs to
    somebody else is left alone. */
module Secrets {
  import opened GoTypes
  import opened RolloutManagers
  import opened Metadata
  import opened Statuses
  import opened Cluster
  import opened Operator
  import opened Settling
  import opened Fixpoint
  import opened Progress
  import opened Traces
  import opened Scopes
  import opened Wakeups
  import opened UserEdits

  function SecretKey(r: Request): Key {
    KeyOf(r, SecretStage)
  }

  /** Its controller has the RolloutManager's name. */
  predicate IsNamesake(o: Obj, r: Request) {
    o.meta.owner.Some? && o.meta.owner.value.name == r.name
  }

  /** There is no Secret, or it is controlled by something of the RolloutManager's name. */
  predicate Ours(w: World, r: Request) {
    w.Lookup(SecretKey(r)).Some? ==> IsNamesake(w.Lookup(SecretKey(r)).value, r)
  }

  /** While the Secret is skipped nothing happens to it, except that a controlled one may go. */
  lemma SkipSparesForeign(w: World, r: Request)
    requires Calm(w)
    ensures var (v, o) := SkipSecret(w, r);
            (v.Lookup(SecretKey(r)) == w.Lookup(SecretKey(r)) ||
             (v.Lookup(SecretKey(r)).None? && IsNamesake(w.Lookup(SecretKey(r)).value, r))) &&
            (o == Done ==> (v.Lookup(SecretKey(r)).None? <==> Ours(w, r)))
  {
    CalmBegin(w);
    CalmBegin(Begin(w));
  }

  lemma EnsureKeepsOwner(w: World, k: Key, expected: Obj, spec: Spec)
    requires Calm(w)
    ensures var (v, o) := Ensure(w, k, expected, spec);
            (o == Done ==> k in v.objs) &&
            (k in v.objs ==> v.objs[k].meta.owner == if k in w.objs then w.objs[k].meta.owner else expected.meta.owner)
  {
    CalmBegin(w);
    CalmBegin(Begin(w));
  }

  /** Whether the Secret should be there: exactly when it is not skipped, or it is foreign. */
  predicate FollowsFlag(w: World, v: World, r: Request, spec: Spec) {
    SecretKey(r) in v.objs <==> !spec.skipNotificationSecret || !Ours(w, r)
  }

  /** A finished run of the stage leaves the Secret as the flag and its owner say. */
  lemma SecretStageFollowsFlag(c: Config, w: World, r: Request, spec: Spec)
    requires Calm(w)
    ensures RunSecret(c, w, r, spec).1 == Done ==> FollowsFlag(w, RunSecret(c, w, r, spec).0, r, spec)
  {
    if spec.skipNotificationSecret {
      SkipSparesForeign(w, r);
    } else {
      EnsureKeepsOwner(w, SecretKey(r), Expected(c, r, spec, SecretStage), spec);
    }
  }

  /** A RolloutManager that creates the Secret makes it foreign to everybody of another name. */
  lemma CreationIsForeignToOthers(c: Config, w: World, q: Request, spec: Spec, r: Request)
    requires Calm(w) && q.ns == r.ns && q.name != r.name && SecretKey(r) !in w.objs && !spec.skipNotificationSecret
    ensures RunSecret(c, w, q, spec).1 == Done ==> !Ours(RunSecret(c, w, q, spec).0, r)
  {
    EnsureKeepsOwner(w, SecretKey(q), Expected(c, q, spec, SecretStage), spec);
  }

  // ----- A foreign Secret, through a whole reconcile -----

  lemma {:induction false} StagesSpareForeign(c: Config, w: World, r: Request, spec: Spec, stages: seq<Stage>)
    requires Calm(w) && spec.skipNotificationSecret && !Ours(w, r)
    ensures Calm(RunStages(c, w, r, spec, stages).0)
    ensures RunStages(c, w, r, spec, stages).0.Lookup(SecretKey(r)) == w.Lookup(SecretKey(r))
    decreases |stages|
  {
    if stages != [] {
      var s := stages[0];
      var (w1, o) := RunStage(c, w, r, spec, s);
      StageKeeps(c, w, r, spec, s);
      if s == SecretStage {
        SkipSparesForeign(w, r);
      } else {
        StagesShareNothing(r, s, SecretStage);
        assert SecretKey(r) in Footprint(r, SecretStage);
      }
      assert w1.Lookup(SecretKey(r)) == w.Lookup(SecretKey(r));
      if o == Done {
        StagesSpareForeign(c, w1, r, spec, stages[1..]);
      }
    }
  }

  lemma ManagerSparesForeign(c: Config, w: World, r: Request, rm: RolloutManager)
    requires Calm(w) && rm.spec.skipNotificationSecret && !Ours(w, r) && r in w.rms && w.rms[r] == rm
    ensures Calm(ReconcileManager(c, w, r, rm).0)
    ensures ReconcileManager(c, w, r, rm).0.Lookup(SecretKey(r)) == w.Lookup(SecretKey(r))
    ensures ReconcileManager(c, w, r, rm).0.rms == w.rms
  {
    var e := GatesFirst(c, w, r, rm);
    StagesSpareForeign(c, e, r, rm.spec, Pipeline(rm.spec));
    StagesKeep(c, e, r, rm.spec, Pipeline(rm.spec));
    CalmBegin(Staged(c, e, r, rm).0);
  }

  /** While the RolloutManager skips the Secret, a reconcile does not touch one that has another
      controller or none, whichever calls fail. */
  lemma ReconcileSparesForeign(c: Config, w: World, r: Request)
    requires Calm(w) && r in w.rms && w.NamespaceIsLive(r.ns) && w.rms[r].spec.skipNotificationSecret && !Ours(w, r)
    ensures Reconcile(c, w, r).0.Lookup(SecretKey(r)) == w.Lookup(SecretKey(r))
  {
    ReachesManager(c, w, r);
    if GetsToGates(w) {
      ManagerSparesForeign(c, AtGates(w), r, w.rms[r]);
      var (m, res, o) := ReconcileManager(c, AtGates(w), r, w.rms[r]);
      WriteIsStatusOnly(m, r, w.rms[r], res, o);
    }
  }

  /** Nor does a clean-up or a reconcile in a terminating namespace, flag or not. */
  lemma IdleReconcileSparesSecret(c: Config, w: World, r: Request)
    requires Calm(w) && !(r in w.rms && w.NamespaceIsLive(r.ns))
    ensures Reconcile(c, w, r).0.Lookup(SecretKey(r)) == w.Lookup(SecretKey(r))
  {
    CalmBegin(w);
    CalmBegin(Begin(w));
    CleanupSparesSecret(c, Begin(w), r);
    CleanupSparesSecret(c, Begin(Begin(w)), r);
  }

  lemma CleanupSparesSecret(c: Config, w: World, r: Request)
    requires Calm(w)
    ensures Cleanup(w).0.Lookup(SecretKey(r)) == w.Lookup(SecretKey(r))
  {
    var keys := set k | k in CLUSTER_SCOPED;
    var calls := RemoveAllLog(w, CLUSTER_SCOPED);
    RemoveAllCalls(c, w, None, CLUSTER_SCOPED);
    forall call | call in calls ensures StageCall(call, keys, keys) {
      assert StageCall(call, {}, keys);
    }
    PlayKeeps(w, calls, keys);
  }

  // ----- One reconcile -----

  lemma OtherStagesSpareSecret(c: Config, w: World, r: Request, spec: Spec, stages: seq<Stage>)
    requires Calm(w) && SecretKey(r) !in Footprints(r, stages)
    ensures RunStages(c, w, r, spec, stages).0.Lookup(SecretKey(r)) == w.Lookup(SecretKey(r))
  {
    StagesKeep(c, w, r, spec, stages);
  }

  lemma {:induction false} StagesFollowFlag(c: Config, w: World, r: Request, spec: Spec, stages: seq<Stage>)
    requires Calm(w) && Disjoint(r, stages) && SecretStage in stages
    ensures RunStages(c, w, r, spec, stages).1 == Done ==> FollowsFlag(w, RunStages(c, w, r, spec, stages).0, r, spec)
    decreases |stages|
  {
    var s, rest := stages[0], stages[1..];
    var (w1, o) := RunStage(c, w, r, spec, s);
    StageKeeps(c, w, r, spec, s);
    HeadIsSeparate(r, stages);
    if s == SecretStage {
      SecretStageFollowsFlag(c, w, r, spec);
      if o == Done {
        OtherStagesSpareSecret(c, w1, r, spec, rest);
      }
    } else {
      StagesShareNothing(r, s, SecretStage);
      assert w1.Lookup(SecretKey(r)) == w.Lookup(SecretKey(r));
      if o == Done {
        StagesFollowFlag(c, w1, r, spec, rest);
      }
    }
  }

  lemma AdmittedFollowsFlag(c: Config, w: World, r: Request, rm: RolloutManager)
    requires Calm(w)
    ensures var (v, res, o) := RunAdmitted(c, w, r, rm);
            Calm(v) && v.rms == w.rms && (o == Done ==> FollowsFlag(w, v, r, rm.spec))
  {
    PipelineIsDisjoint(r, rm.spec);
    assert Pipeline(rm.spec)[6] == SecretStage;
    StagesFollowFlag(c, w, r, rm.spec, Pipeline(rm.spec));
    StagesKeep(c, w, r, rm.spec, Pipeline(rm.spec));
    CalmBegin(Staged(c, w, r, rm).0);
  }

  /** The gates leave the world as it is; then come the stages, or nothing. */
  lemma GatesFirst(c: Config, w: World, r: Request, rm: RolloutManager) returns (e: World)
    requires Calm(w) && r in w.rms && w.rms[r] == rm
    ensures Idle(w, e) && (e == w || e == Begin(w))
    ensures ReconcileManager(c, w, r, rm) != RunAdmitted(c, e, r, rm) ==>
            ReconcileManager(c, w, r, rm).0 == e &&
            (ReconcileManager(c, w, r, rm).2 == Done ==> Verdict(c, w.rms, r).Some?)
  {
    CalmBegin(w);
    e := if ScopeProblem(c, r, rm.spec).Some? || rm.spec.namespaceScoped then w else Begin(w);
  }

  lemma ManagerFollowsFlag(c: Config, w: World, r: Request, rm: RolloutManager)
    requires Calm(w) && r in w.rms && w.rms[r] == rm
    ensures var (v, res, o) := ReconcileManager(c, w, r, rm);
            Calm(v) && v.rms == w.rms && (o == Done && Verdict(c, w.rms, r).None? ==> FollowsFlag(w, v, r, rm.spec))
  {
    var e := GatesFirst(c, w, r, rm);
    AdmittedFollowsFlag(c, e, r, rm);
  }

  /** After a successful reconcile of an admitted RolloutManager, whichever calls failed, the
      Secret is there exactly when the flag is off or the Secret was foreign before. */
  lemma ReconcileFollowsFlag(c: Config, w: World, r: Request)
    requires Calm(w) && r in w.rms && w.NamespaceIsLive(r.ns) && Verdict(c, w.rms, r).None?
    ensures Reconcile(c, w, r).1 == Done ==> FollowsFlag(w, Reconcile(c, w, r).0, r, w.rms[r].spec)
  {
    ReachesManager(c, w, r);
    if GetsToGates(w) {
      ManagerFollowsFlag(c, AtGates(w), r, w.rms[r]);
      var (m, res, o) := ReconcileManager(c, AtGates(w), r, w.rms[r]);
      WriteIsStatusOnly(m, r, w.rms[r], res, o);
    }
  }

  // ----- Runs -----

  /** What is read in this namespace is this RolloutManager only. */
  ghost predicate ReadsOnly(calls: seq<Call>, r: Request) {
    forall call | call in calls && call.Read? && call.r.ns == r.ns :: call.r == r
  }

  predicate WorksOn(reading: Option<(Request, Spec)>, r: Request) {
    reading.Some? && reading.value.0.ns == r.ns ==> reading.value.0 == r
  }

  lemma CallKeepsOurs(c: Config, w: World, reading: Option<(Request, Spec)>, call: Call, r: Request)
    requires Fits(c, w, reading, call) && Spared(w, SecretKey(r)) && (call.Happen? ==> !Touches(call.e, SecretKey(r)))
    requires WorksOn(reading, r) && Ours(w, r)
    ensures Ours(Made(w, call), r)
  {
    CallLeaves(w, call, SecretKey(r));
    BeginLeaves(w, SecretKey(r));
    if call.Put? && call.key == SecretKey(r) {
      assert call.why.stage.SecretStage? && call.why.r.ns == r.ns;
      assert Expected(c, r, call.why.spec, SecretStage).meta.owner == Some(Owner(true, r.name));
    }
  }

  lemma {:induction false} PlayKeepsOurs(c: Config, w: World, reading: Option<(Request, Spec)>, calls: seq<Call>,
                                         r: Request)
    requires Fair(c, w, reading, calls) && Spared(w, SecretKey(r)) && EventsSpare(calls, SecretKey(r))
    requires WorksOn(reading, r) && ReadsOnly(calls, r) && Ours(w, r)
    ensures Ours(Play(w, calls), r)
    decreases |calls|
  {
    if calls != [] {
      CallLeaves(w, calls[0], SecretKey(r));
      CallKeepsOurs(c, w, reading, calls[0], r);
      assert EventsSpare(calls[1..], SecretKey(r)) && ReadsOnly(calls[1..], r);
      PlayKeepsOurs(c, Made(w, calls[0]), ReadBy(reading, calls[0]), calls[1..], r);
    }
  }

  /** No other RolloutManager of the namespace has a turn. */
  ghost predicate OnlyItsTurns(actions: seq<Action>, r: Request) {
    forall a | a in actions && a.Process? && a.r.ns == r.ns :: a.r == r
  }

  lemma {:induction false} RunReadsOnly(c: Config, w: World, actions: seq<Action>, r: Request)
    requires OnlyItsTurns(actions, r)
    ensures ReadsOnly(RunLog(c, w, actions), r)
    decreases |actions|
  {
    if actions != [] {
      RunReadsOnly(c, Next(c, w, actions[0]), actions[1..], r);
      if actions[0].Process? {
        WorkCalls(c, w, actions[0].r, None);
        forall call | call in WorkLog(c, w, actions[0].r) ensures TurnCall(call, actions[0].r) {
        }
      }
      assert actions[0] in actions;
    }
  }

  /** Over every run in which no outsider touches the Secret and no other RolloutManager of the
      namespace has a turn, whatever CRs change and whichever calls fail, it stays absent or ours. */
  lemma RunKeepsOurs(c: Config, w: World, actions: seq<Action>, r: Request)
    requires Spared(w, SecretKey(r)) && RunSpares(actions, SecretKey(r)) && OnlyItsTurns(actions, r) && Ours(w, r)
    ensures Ours(Run(c, w, actions), r)
  {
    RunCalls(c, w, actions, None);
    RunLogSpares(c, w, actions, SecretKey(r));
    RunReadsOnly(c, w, actions, r);
    PlayKeepsOurs(c, w, None, RunLog(c, w, actions), r);
  }

  /** After any run at all, a successful admitted reconcile leaves the Secret there exactly when the
      flag is off or the run left a foreign one; after the runs above, exactly when it is off. */
  lemma SecretFollowsFlag(c: Config, w: World, actions: seq<Action>, r: Request)
    ensures var u := Run(c, w, actions);
            Calm(u) && LiveAdmitted(c, u, r) && Reconcile(c, u, r).1 == Done ==>
              FollowsFlag(u, Reconcile(c, u, r).0, r, u.rms[r].spec) &&
              (Spared(w, SecretKey(r)) && RunSpares(actions, SecretKey(r)) && OnlyItsTurns(actions, r) && Ours(w, r) ==>
                (SecretKey(r) in Reconcile(c, u, r).0.objs <==> !u.rms[r].spec.skipNotificationSecret))
  {
    var u := Run(c, w, actions);
    if Calm(u) && LiveAdmitted(c, u, r) {
      ReconcileFollowsFlag(c, u, r);
      if Spared(w, SecretKey(r)) && RunSpares(actions, SecretKey(r)) && OnlyItsTurns(actions, r) && Ours(w, r) {
        RunKeepsOurs(c, w, actions, r);
      }
    }
  }
}
