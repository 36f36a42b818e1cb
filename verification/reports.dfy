/** What a RolloutManager's status tells: the phase of its Deployment after a success, the verdict
    after a rejection, the cause after a failure; and when a namespace is on the operator's list. */
module Reports {
  import opened GoTypes
  import opened GoStrings
  import opened RolloutManagers
  import opened Metadata
  import opened Statuses
  import opened Cluster
  import opened Operator
  import opened Settling
  import opened Fixpoint
  import opened Progress
  import opened Traces
  import opened Scopes

  // ----- The list of namespaces -----

  /** The namespace stands between commas, or the ends of the text, with nothing but white space
      around it. */
  ghost predicate IsListed(text: string, ns: string) {
    exists before, piece, after, left, right ::
      IsPiece(text, ',', before, piece, after) && IsCore(piece, left, ns, right)
  }

  lemma AllowedExactly(c: Config, ns: string)
    ensures AllowedNamespace(c, ns) <==> IsListed(c.clusterScopedNamespaces, ns)
  {
    var text := c.clusterScopedNamespaces;
    if AllowedNamespace(c, ns) {
      var i :| 0 <= i < |SplitList(text)| && SplitList(text)[i] == ns;
      var piece := Split(text, ',')[i];
      SplitExactly(text, ',', piece);
      TrimExactly(piece, ns);
      var before, after :| IsPiece(text, ',', before, piece, after);
      var left, right :| IsCore(piece, left, ns, right);
    }
    if before, piece, after, left, right :|
        IsPiece(text, ',', before, piece, after) && IsCore(piece, left, ns, right) {
      SplitExactly(text, ',', piece);
      TrimExactly(piece, ns);
      var i :| 0 <= i < |Split(text, ',')| && Split(text, ',')[i] == piece;
      assert SplitList(text)[i] == ns;
    }
  }

  // ----- Conditions -----

  /** The status has one condition that counts, the first of its kind, and it says this. */
  ghost predicate Says(s: Status, reason: Reason, message: Message, truth: Truth) {
    exists i | 0 <= i < |s.conditions| ::
      s.conditions[i].kind == "Reconciled" && (forall j | 0 <= j < i :: s.conditions[j].kind != "Reconciled") &&
      s.conditions[i].reason == reason && s.conditions[i].message == message && s.conditions[i].status == truth
  }

  lemma HeldIsSaid(s: Status, reason: Reason, message: Message, truth: Truth)
    requires Holds(Condition("Reconciled", reason, message, truth, 0), s.conditions)
    ensures Says(s, reason, message, truth)
  {
    var i := IndexOf(s.conditions, "Reconciled").value;
    assert s.conditions[i].kind == "Reconciled";
  }

  /** A status that was written, or that needed no writing. */
  lemma WrittenFollows(w: World, r: Request, rm: RolloutManager, res: StatusResult, o: Outcome)
    requires Calm(w) && r in w.rms && w.rms[r] == rm && !o.Panicked?
    requires WriteResult(w, r, rm, res, o).1 == o
    requires o.Failed? ==> w.Quiet()
    ensures var v := WriteResult(w, r, rm, res, o).0;
            v.objs == w.objs && r in v.rms && v.rms[r].spec == rm.spec && Follows(v.rms[r].status, rm.status, res)
  {
    CalmBegin(w);
    SettledStatusStays(rm.status, res, w.now);
  }

  // ----- Success -----

  /** How many replicas are asked for, and how many are ready. */
  function Count(o: Obj): Option<int> {
    if o.body.DeploymentBody? then o.body.spec.replicas else None
  }

  function Ready(o: Obj): int {
    if o.body.DeploymentBody? then o.body.ready else 0
  }

  predicate Tells(phase: Phase, deployment: Option<Obj>) {
    (phase == Failure <==> deployment.None?) &&
    (phase == Unknown <==> deployment.Some? && Count(deployment.value).None?) &&
    (phase == Available <==> deployment.Some? && Count(deployment.value) == Some(Ready(deployment.value))) &&
    (phase == Pending <==>
      deployment.Some? && Count(deployment.value).Some? && Count(deployment.value).value != Ready(deployment.value)) &&
    phase != Unset
  }

  lemma PhaseTells(live: Option<Obj>)
    ensures Tells(PhaseOf(if live.Some? then Some(AsDeployment(live.value)) else None), live)
  {
  }

  ghost predicate SuccessTold(s: Status, objs: map<Key, Obj>, r: Request) {
    s.phase == s.rolloutController && Tells(s.phase, LookIn(objs, Key(DeploymentKind, r.ns, "argo-rollouts"))) &&
    Says(s, Success, NoMessage, True)
  }

  lemma FollowingIsTold(s: Status, before: Status, objs: map<Key, Obj>, r: Request, phase: Phase)
    requires Follows(s, before, PhaseResult(before, phase)) && Tells(phase, LookIn(objs, KeyOf(r, DeploymentStage)))
    ensures SuccessTold(s, objs, r)
  {
    HeldIsSaid(s, Success, NoMessage, True);
  }

  lemma AdmittedIsTold(c: Config, w: World, r: Request, rm: RolloutManager)
    requires Calm(w) && RunAdmitted(c, w, r, rm).2 == Done
    ensures var (v, res, o) := RunAdmitted(c, w, r, rm);
            exists phase ::
              res == PhaseResult(rm.status, phase) && Tells(phase, LookIn(v.objs, KeyOf(r, DeploymentStage)))
  {
    var w1 := RunStages(c, w, r, rm.spec, Pipeline(rm.spec)).0;
    StagesKeep(c, w, r, rm.spec, Pipeline(rm.spec));
    CalmBegin(w1);
    PhaseTells(LookIn(w1.objs, KeyOf(r, DeploymentStage)));
  }

  /** After every successful reconcile of an admitted RolloutManager, whichever calls failed without
      failing it, both phases tell how the stored Deployment is doing. */
  lemma SuccessIsReported(c: Config, w: World, r: Request)
    requires Calm(w) && r in w.rms && w.NamespaceIsLive(r.ns) && Verdict(c, w.rms, r).None?
    requires Reconcile(c, w, r).1 == Done
    ensures var v := Reconcile(c, w, r).0; r in v.rms && SuccessTold(v.rms[r].status, v.objs, r)
  {
    var rm := w.rms[r];
    ReachesManager(c, w, r);
    var u := AtGates(w);
    var (m, res, o) := ReconcileManager(c, u, r, rm);
    SuccessRanStages(c, u, r, rm);
    var e := PastGates(u, rm.spec);
    assert ReconcileManager(c, u, r, rm) == RunAdmitted(c, e, r, rm);
    AdmittedIsTold(c, e, r, rm);
    WrittenFollows(m, r, rm, res, o);
    var v := Reconcile(c, w, r).0;
    var phase :| res == PhaseResult(rm.status, phase) && Tells(phase, LookIn(m.objs, KeyOf(r, DeploymentStage)));
    FollowingIsTold(v.rms[r].status, rm.status, v.objs, r, phase);
  }

  // ----- Rejection -----

  ghost predicate RejectionTold(s: Status, reason: Reason, cause: Cause) {
    s.phase == Failure && s.rolloutController == Failure && Says(s, reason, Message(cause), False)
  }

  ghost predicate IsRival(w: World, r: Request) {
    exists q :: q in w.rms && q != r && !w.rms[q].spec.namespaceScoped
  }

  /** Why a RolloutManager is turned away, in words a user could check: its scope is not the
      operator's, or its namespace is not listed, or it has a rival. */
  ghost function TurnedAway(c: Config, w: World, r: Request): Option<(Reason, Cause)>
    requires r in w.rms
  {
    if c.namespaceScoped && !w.rms[r].spec.namespaceScoped then Some((InvalidScope, NotClusterScoped))
    else if !c.namespaceScoped && w.rms[r].spec.namespaceScoped then Some((InvalidScope, NotNamespaceScoped))
    else if !c.namespaceScoped && !IsListed(c.clusterScopedNamespaces, r.ns) then
      Some((InvalidNamespace, NamespaceNotListed))
    else if !c.namespaceScoped && IsRival(w, r) then Some((MultipleClusterScoped, NotAlone))
    else None
  }

  lemma VerdictExactly(c: Config, w: World, r: Request)
    requires r in w.rms
    ensures Verdict(c, w.rms, r).Some? <==> TurnedAway(c, w, r).Some?
    ensures Verdict(c, w.rms, r).Some? ==>
            Verdict(c, w.rms, r).value ==
            Condition("Reconciled", TurnedAway(c, w, r).value.0, Message(TurnedAway(c, w, r).value.1), False, 0)
  {
    AllowedExactly(c, r.ns);
  }

  /** A reconcile of one that is turned away succeeds only if its status says so, and why. */
  lemma RejectionIsReported(c: Config, w: World, r: Request)
    requires Calm(w) && r in w.rms && w.NamespaceIsLive(r.ns) && TurnedAway(c, w, r).Some?
    requires Reconcile(c, w, r).1 == Done
    ensures var v := Reconcile(c, w, r).0;
            r in v.rms &&
            RejectionTold(v.rms[r].status, TurnedAway(c, w, r).value.0, TurnedAway(c, w, r).value.1)
  {
    var rm := w.rms[r];
    VerdictExactly(c, w, r);
    ReachesManager(c, w, r);
    var u := AtGates(w);
    var (m, res, o) := ReconcileManager(c, u, r, rm);
    RejectedManager(c, u, r);
    RejectedResult(c, u, r);
    WrittenFollows(m, r, rm, res, o);
    var (reason, cause) := TurnedAway(c, w, r).value;
    HeldIsSaid(Reconcile(c, w, r).0.rms[r].status, reason, Message(cause), False);
  }

  lemma RejectedResult(c: Config, w: World, r: Request)
    requires Calm(w) && r in w.rms && Verdict(c, w.rms, r).Some?
    ensures var (v, res, o) := ReconcileManager(c, w, r, w.rms[r]);
            !o.Panicked? && (o == Done ==> res == Rejection(Verdict(c, w.rms, r).value))
    ensures WriteResult(ReconcileManager(c, w, r, w.rms[r]).0, r, w.rms[r], ReconcileManager(c, w, r, w.rms[r]).1,
                        ReconcileManager(c, w, r, w.rms[r]).2).1 == Done ==>
            ReconcileManager(c, w, r, w.rms[r]).2 == Done
  {
    CalmBegin(w);
  }

  // ----- Failure -----

  /** A failed reconcile leaves both phases as they were and says what failed. */
  lemma FailureIsReported(c: Config, w: World, r: Request)
    requires w.Quiet() && r in w.rms && w.NamespaceIsLive(r.ns) && Reconcile(c, w, r).1.Failed?
    ensures var (v, o) := Reconcile(c, w, r);
            r in v.rms && v.rms[r].status.phase == w.rms[r].status.phase &&
            v.rms[r].status.rolloutController == w.rms[r].status.rolloutController &&
            Says(v.rms[r].status, ErrorOccurred, Message(o.cause), False)
  {
    var rm := w.rms[r];
    ManagerByVerdict(c, w, r);
    AdmittedResult(c, w, r, rm);
    var (m, res, o) := ReconcileManager(c, w, r, rm);
    if Verdict(c, w.rms, r).None? {
      WriteResultLands(m, r, rm, res, o);
      HeldIsSaid(Reconcile(c, w, r).0.rms[r].status, ErrorOccurred, Message(o.cause), False);
    } else {
      WriteResultLands(w, r, rm, res, Done);
      assert false;
    }
  }
}
