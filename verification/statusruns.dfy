/** Statuses over all runs: both phases stay equal and condition kinds unique, however
    outsiders act, whichever calls fail, in either scope. */
module StatusRuns {
  import opened GoTypes
  import opened RolloutManagers
  import opened Statuses
  import opened Cluster
  import opened Operator
  import opened Traces
  import opened Wakeups

  ghost predicate Sound(s: Status) {
    s.phase == s.rolloutController && UniqueKinds(s.conditions)
  }

  ghost predicate AllSound(w: World) {
    forall r | r in w.rms :: Sound(w.rms[r].status)
  }

  lemma {:induction false} EventsKeepSound(w: World, events: seq<Event>)
    requires AllSound(w)
    ensures AllSound(ApplyAll(w, events))
    decreases |events|
  {
    if events != [] {
      EventsKeepSound(ApplyChange(w, events[0].change, events[0].notified), events[1..]);
    }
  }

  lemma BeginKeepsSound(w: World)
    requires AllSound(w)
    ensures AllSound(Begin(w))
  {
    if !w.Quiet() {
      EventsKeepSound(w.(schedule := w.schedule[1..], now := w.now + w.schedule[0].elapsed), w.schedule[0].outside);
    }
  }

  lemma {:induction false} PlayKeepsSound(w: World, calls: seq<Call>, puts: set<Key>, drops: set<Key>)
    requires AllSound(w) && StageOnly(calls, puts, drops)
    ensures AllSound(Play(w, calls))
    decreases |calls|
  {
    if calls != [] {
      assert StageCall(calls[0], puts, drops);
      BeginKeepsSound(w);
      PlayKeepsSound(Made(w, calls[0]), calls[1..], puts, drops);
    }
  }

  lemma {:induction false} StagesKeepSound(c: Config, w: World, r: Request, spec: Spec, stages: seq<Stage>)
    requires AllSound(w)
    ensures AllSound(RunStages(c, w, r, spec, stages).0)
    decreases |stages|
  {
    if stages != [] {
      var calls := StageLog(c, w, r, spec, stages[0]);
      StageCalls(c, w, r, spec, stages[0]);
      PlayKeepsSound(w, calls, {KeyOf(r, stages[0])}, Drops(r, stages[0]));
      var (w1, o) := RunStage(c, w, r, spec, stages[0]);
      if o == Done {
        StagesKeepSound(c, w1, r, spec, stages[1..]);
      }
    }
  }

  lemma CleanupKeepsSound(c: Config, w: World)
    requires AllSound(w)
    ensures AllSound(Cleanup(w).0)
  {
    var calls := RemoveAllLog(w, CLUSTER_SCOPED);
    RemoveAllCalls(c, w, None, CLUSTER_SCOPED);
    PlayKeepsSound(w, calls, {}, set k | k in CLUSTER_SCOPED);
  }

  /** The result leads from a sound status to equal phases. */
  ghost predicate Balanced(s: Status, res: StatusResult) {
    res.phase.GetOr(s.phase) == res.rolloutController.GetOr(s.rolloutController)
  }

  lemma AdmittedIsBalanced(c: Config, w: World, r: Request, rm: RolloutManager)
    requires AllSound(w) && Sound(rm.status)
    ensures AllSound(RunAdmitted(c, w, r, rm).0) && Balanced(rm.status, RunAdmitted(c, w, r, rm).1)
  {
    StagesKeepSound(c, w, r, rm.spec, Pipeline(rm.spec));
    BeginKeepsSound(RunStages(c, w, r, rm.spec, Pipeline(rm.spec)).0);
  }

  lemma ManagerIsBalanced(c: Config, w: World, r: Request, rm: RolloutManager)
    requires AllSound(w) && Sound(rm.status)
    ensures AllSound(ReconcileManager(c, w, r, rm).0) && Balanced(rm.status, ReconcileManager(c, w, r, rm).1)
  {
    BeginKeepsSound(w);
    AdmittedIsBalanced(c, w, r, rm);
    AdmittedIsBalanced(c, Begin(w), r, rm);
  }

  lemma WriteKeepsSound(w: World, r: Request, rm: RolloutManager, res: StatusResult, o: Outcome)
    requires AllSound(w) && Sound(rm.status) && Balanced(rm.status, res)
    ensures AllSound(WriteResult(w, r, rm, res, o).0)
  {
    BeginKeepsSound(w);
    InsertionKeepsOthers(res.condition, rm.status.conditions, w.now);
  }

  lemma ReconcileKeepsSound(c: Config, w: World, r: Request)
    requires AllSound(w)
    ensures AllSound(Reconcile(c, w, r).0)
  {
    var w1 := Begin(w);
    var w2 := Begin(w1);
    BeginKeepsSound(w);
    BeginKeepsSound(w1);
    CleanupKeepsSound(c, w1);
    CleanupKeepsSound(c, w2);
    if r in w2.rms {
      var (w3, res, o) := ReconcileManager(c, w2, r, w2.rms[r]);
      ManagerIsBalanced(c, w2, r, w2.rms[r]);
      WriteKeepsSound(w3, r, w2.rms[r], res, o);
    }
  }

  /** From equal initial phases and unique conditions, every reachable state has them. */
  lemma {:induction false} StatusesStaySound(c: Config, w: World, actions: seq<Action>)
    requires AllSound(w)
    ensures AllSound(Run(c, w, actions))
    decreases |actions|
  {
    if actions != [] {
      match actions[0]
      case Outside(e) =>
        StatusesStaySound(c, ApplyChange(w, e.change, e.notified), actions[1..]);
      case Process(r) =>
        ReconcileKeepsSound(c, w.(queue := w.queue - {r}), r);
        StatusesStaySound(c, Work(c, w, r), actions[1..]);
    }
  }
}
