/** User edits survive: over every run in which no outsider touches an object, and for as long as
    the operator does not delete it, it keeps every label, annotation and entry that is not the
    operator's own. */
module UserEdits {
  import opened GoTypes
  import opened RolloutManagers
  import opened Metadata
  import opened Statuses
  import opened Cluster
  import opened Operator
  import opened Wakeups
  import opened Traces

  // ----- The calls of a reconcile -----

  /** A call of the worker's turn for `r`. */
  predicate TurnCall(call: Call, r: Request) {
    match call
    case Happen(_) => false
    case Read(q, _) => q == r
    case Mark(q, _) => q == r
    case Take(q) => q == r
    case Return(q) => q == r
    case _ => true
  }

  ghost predicate OfTurn(calls: seq<Call>, r: Request) {
    forall call | call in calls :: TurnCall(call, r)
  }

  lemma StageOnlyIsOfTurn(calls: seq<Call>, puts: set<Key>, drops: set<Key>, r: Request)
    requires StageOnly(calls, puts, drops)
    ensures OfTurn(calls, r)
  {
    forall call | call in calls ensures TurnCall(call, r) {
      assert StageCall(call, puts, drops);
    }
  }

  /** Calls of a turn that fit, from one world to another. */
  ghost predicate Leads(c: Config, w: World, r: Request, reading: Option<(Request, Spec)>, calls: seq<Call>, v: World) {
    Play(w, calls) == v && Fair(c, w, reading, calls) && OfTurn(calls, r)
  }

  lemma LeadsThen(c: Config, w: World, r: Request, reading: Option<(Request, Spec)>, x: seq<Call>, u: World,
                  y: seq<Call>, v: World)
    requires Leads(c, w, r, reading, x, u) && Leads(c, u, r, Reading(reading, x), y, v)
    ensures Leads(c, w, r, reading, x + y, v)
  {
    PlayThen(c, w, reading, x, y);
  }

  lemma OneLeads(c: Config, w: World, r: Request, reading: Option<(Request, Spec)>, call: Call)
    requires Fits(c, w, reading, call) && TurnCall(call, r)
    ensures Leads(c, w, r, reading, [call], Made(w, call)) && Reading(reading, [call]) == ReadBy(reading, call)
  {
    assert [call][1..] == [];
  }

  function AdmittedLog(c: Config, w: World, r: Request, rm: RolloutManager): seq<Call> {
    StagesLog(c, w, r, rm.spec, Pipeline(rm.spec)) +
    (if RunStages(c, w, r, rm.spec, Pipeline(rm.spec)).1 == Done then [Look] else [])
  }

  lemma AdmittedCalls(c: Config, w: World, r: Request, rm: RolloutManager)
    ensures Leads(c, w, r, Some((r, rm.spec)), AdmittedLog(c, w, r, rm), RunAdmitted(c, w, r, rm).0)
    ensures Reading(Some((r, rm.spec)), AdmittedLog(c, w, r, rm)) == Some((r, rm.spec))
  {
    var stages, reading := Pipeline(rm.spec), Some((r, rm.spec));
    var calls := StagesLog(c, w, r, rm.spec, stages);
    StagesCalls(c, w, r, rm.spec, stages);
    StageOnlyIsOfTurn(calls, Targets(r, stages), AllDrops(r, stages), r);
    ReadingStays(reading, calls, Targets(r, stages), AllDrops(r, stages));
    var (w1, o) := RunStages(c, w, r, rm.spec, stages);
    var last: seq<Call> := if o == Done then [Look] else [];
    OneLeads(c, w1, r, reading, Look);
    LeadsThen(c, w, r, reading, calls, w1, last, RunAdmitted(c, w, r, rm).0);
    PlayThen(c, w, reading, calls, last);
  }

  function ManagerLog(c: Config, w: World, r: Request, rm: RolloutManager): seq<Call> {
    if ScopeProblem(c, r, rm.spec).Some? then []
    else if rm.spec.namespaceScoped then AdmittedLog(c, w, r, rm)
    else
      var (w1, rms) := ListManagers(w);
      [Look] + (if rms.Ok? && !OtherClusterScoped(rms.value, r) then AdmittedLog(c, w1, r, rm) else [])
  }

  lemma ManagerCalls(c: Config, w: World, r: Request, rm: RolloutManager)
    ensures Leads(c, w, r, Some((r, rm.spec)), ManagerLog(c, w, r, rm), ReconcileManager(c, w, r, rm).0)
    ensures Reading(Some((r, rm.spec)), ManagerLog(c, w, r, rm)) == Some((r, rm.spec))
  {
    var reading := Some((r, rm.spec));
    if ScopeProblem(c, r, rm.spec).None? {
      if rm.spec.namespaceScoped {
        AdmittedCalls(c, w, r, rm);
      } else {
        var (w1, rms) := ListManagers(w);
        OneLeads(c, w, r, reading, Look);
        var rest := if rms.Ok? && !OtherClusterScoped(rms.value, r) then AdmittedLog(c, w1, r, rm) else [];
        AdmittedCalls(c, w1, r, rm);
        LeadsThen(c, w, r, reading, [Look], w1, rest, ReconcileManager(c, w, r, rm).0);
        PlayThen(c, w, reading, [Look], rest);
      }
    }
  }

  /** The status write, or a look if it was refused or had nothing to change. */
  function StatusLog(w: World, r: Request, rm: RolloutManager, res: StatusResult, o: Outcome): seq<Call> {
    if o.Panicked? || StatusSettled(rm.status, res) then []
    else
      var status := NextStatus(rm.status, res, w.now);
      [if UpdateStatus(w, r, rm, status).0 == Begin(w) then Look else Mark(r, status)]
  }

  lemma StatusCalls(c: Config, w: World, r: Request, rm: RolloutManager, res: StatusResult, o: Outcome,
                    reading: Option<(Request, Spec)>)
    requires reading == Some((r, rm.spec))
    ensures Leads(c, w, r, reading, StatusLog(w, r, rm, res, o), WriteResult(w, r, rm, res, o).0)
  {
    var calls := StatusLog(w, r, rm, res, o);
    if calls != [] {
      OneLeads(c, w, r, reading, calls[0]);
      assert calls == [calls[0]];
    }
  }

  lemma CleanupCalls(c: Config, w: World, r: Request, reading: Option<(Request, Spec)>)
    ensures Leads(c, w, r, reading, RemoveAllLog(w, CLUSTER_SCOPED), Cleanup(w).0)
  {
    RemoveAllCalls(c, w, reading, CLUSTER_SCOPED);
    StageOnlyIsOfTurn(RemoveAllLog(w, CLUSTER_SCOPED), {}, (set k | k in CLUSTER_SCOPED), r);
  }

  /** The calls for a RolloutManager that was read. */
  function ReadLog(c: Config, w: World, r: Request, rm: RolloutManager): seq<Call> {
    var (w1, res, o) := ReconcileManager(c, w, r, rm);
    ManagerLog(c, w, r, rm) + StatusLog(w1, r, rm, res, o)
  }

  lemma ReadCalls(c: Config, w: World, r: Request, rm: RolloutManager)
    ensures var (w1, res, o) := ReconcileManager(c, w, r, rm);
            Leads(c, w, r, Some((r, rm.spec)), ReadLog(c, w, r, rm), WriteResult(w1, r, rm, res, o).0)
  {
    var (w1, res, o) := ReconcileManager(c, w, r, rm);
    ManagerCalls(c, w, r, rm);
    StatusCalls(c, w1, r, rm, res, o, Some((r, rm.spec)));
    LeadsThen(c, w, r, Some((r, rm.spec)), ManagerLog(c, w, r, rm), w1, StatusLog(w1, r, rm, res, o),
              WriteResult(w1, r, rm, res, o).0);
  }

  /** The calls that follow the reading of a live namespace. */
  function LiveLog(c: Config, w: World, r: Request): seq<Call> {
    var (w1, rm) := GetManager(w, r);
    if rm.Ok? then [Read(r, rm.value.spec)] + ReadLog(c, w1, r, rm.value)
    else [Look] + (if rm == Err(NotFound) then RemoveAllLog(w1, CLUSTER_SCOPED) else [])
  }

  lemma LiveCalls(c: Config, w: World, r: Request, reading: Option<(Request, Spec)>, v: World)
    requires var (w1, rm) := GetManager(w, r);
             v == if rm == Err(NotFound) then Cleanup(w1).0
                  else if rm.Err? then w1
                  else var (w2, res, o) := ReconcileManager(c, w1, r, rm.value); WriteResult(w2, r, rm.value, res, o).0
    ensures Leads(c, w, r, reading, LiveLog(c, w, r), v)
  {
    var (w1, rm) := GetManager(w, r);
    if rm.Ok? {
      OneLeads(c, w, r, reading, Read(r, rm.value.spec));
      ReadCalls(c, w1, r, rm.value);
      LeadsThen(c, w, r, reading, [Read(r, rm.value.spec)], w1, ReadLog(c, w1, r, rm.value), v);
    } else {
      OneLeads(c, w, r, reading, Look);
      CleanupCalls(c, w1, r, reading);
      LeadsThen(c, w, r, reading, [Look], w1, if rm == Err(NotFound) then RemoveAllLog(w1, CLUSTER_SCOPED) else [], v);
    }
  }

  /** The calls a reconcile makes, in order. */
  function ReconcileLog(c: Config, w: World, r: Request): seq<Call> {
    var (w1, terminating) := GetNamespace(w, r.ns);
    [Look] + (
    if terminating == Err(NotFound) then RemoveAllLog(w1, CLUSTER_SCOPED)
    else if terminating == Ok(false) then LiveLog(c, w1, r)
    else [])
  }

  /** They are the reconcile, and each of them fits: what is put is for the spec that was read. */
  lemma ReconcileCalls(c: Config, w: World, r: Request, reading: Option<(Request, Spec)>)
    ensures Leads(c, w, r, reading, ReconcileLog(c, w, r), Reconcile(c, w, r).0)
  {
    var (w1, terminating) := GetNamespace(w, r.ns);
    OneLeads(c, w, r, reading, Look);
    var rest: seq<Call> := [];
    if terminating == Err(NotFound) {
      CleanupCalls(c, w1, r, reading);
      rest := RemoveAllLog(w1, CLUSTER_SCOPED);
    } else if terminating == Ok(false) {
      LiveCalls(c, w1, r, reading, Reconcile(c, w, r).0);
      rest := LiveLog(c, w1, r);
    }
    LeadsThen(c, w, r, reading, [Look], w1, rest, Reconcile(c, w, r).0);
  }

  // ----- The calls of a run -----

  function WorkLog(c: Config, w: World, r: Request): seq<Call> {
    if r !in w.queue then []
    else
      var p := w.(queue := w.queue - {r});
      [Take(r)] + ReconcileLog(c, p, r) + (if Reconcile(c, p, r).1 == Done then [] else [Return(r)])
  }

  lemma WorkCalls(c: Config, w: World, r: Request, reading: Option<(Request, Spec)>)
    ensures Leads(c, w, r, reading, WorkLog(c, w, r), Work(c, w, r))
  {
    if r in w.queue {
      var p := w.(queue := w.queue - {r});
      var (w1, o) := Reconcile(c, p, r);
      OneLeads(c, w, r, reading, Take(r));
      ReconcileCalls(c, p, r, None);
      var calls := [Take(r)] + ReconcileLog(c, p, r);
      LeadsThen(c, w, r, reading, [Take(r)], p, ReconcileLog(c, p, r), w1);
      OneLeads(c, w1, r, Reading(reading, calls), Return(r));
      LeadsThen(c, w, r, reading, calls, w1, if o == Done then [] else [Return(r)], Work(c, w, r));
    }
  }

  function ActionLog(c: Config, w: World, a: Action): seq<Call> {
    match a
    case Outside(e) => [Happen(e)]
    case Process(r) => WorkLog(c, w, r)
  }

  /** The calls of a run, turn by turn, with the outside changes between the turns. */
  function RunLog(c: Config, w: World, actions: seq<Action>): seq<Call>
    decreases |actions|
  {
    if actions == [] then []
    else
      ActionLog(c, w, actions[0]) + RunLog(c, Next(c, w, actions[0]), actions[1..])
  }

  /** The outside changes among the calls. */
  function Happenings(calls: seq<Call>): seq<Event> {
    if calls == [] then []
    else if calls[0].Happen? then [calls[0].e] + Happenings(calls[1..])
    else Happenings(calls[1..])
  }

  function OutsideEvents(actions: seq<Action>): seq<Event> {
    if actions == [] then []
    else if actions[0].Outside? then [actions[0].e] + OutsideEvents(actions[1..])
    else OutsideEvents(actions[1..])
  }

  lemma {:induction false} NothingHappens(x: seq<Call>, y: seq<Call>, r: Request)
    requires OfTurn(x, r)
    ensures Happenings(x + y) == Happenings(y)
    decreases |x|
  {
    if x == [] {
      assert x + y == y;
    } else {
      assert TurnCall(x[0], r);
      NothingHappens(x[1..], y, r);
      assert (x + y)[1..] == x[1..] + y;
    }
  }

  lemma {:induction false} RunHappens(c: Config, w: World, actions: seq<Action>)
    ensures Happenings(RunLog(c, w, actions)) == OutsideEvents(actions)
    decreases |actions|
  {
    if actions != [] {
      var y := RunLog(c, Next(c, w, actions[0]), actions[1..]);
      RunHappens(c, Next(c, w, actions[0]), actions[1..]);
      match actions[0]
      case Outside(e) => assert ([Happen(e)] + y)[1..] == y;
      case Process(r) =>
        WorkCalls(c, w, r, None);
        NothingHappens(WorkLog(c, w, r), y, r);
    }
  }

  lemma ActionCalls(c: Config, w: World, a: Action, reading: Option<(Request, Spec)>)
    ensures Play(w, ActionLog(c, w, a)) == Next(c, w, a) && Fair(c, w, reading, ActionLog(c, w, a))
  {
    match a
    case Outside(e) => assert [Happen(e)][1..] == [];
    case Process(r) => WorkCalls(c, w, r, reading);
  }

  /** They are the run: each of them fits, and the outside changes are those of the run. */
  lemma {:induction false} RunCalls(c: Config, w: World, actions: seq<Action>, reading: Option<(Request, Spec)>)
    ensures Play(w, RunLog(c, w, actions)) == Run(c, w, actions) && Fair(c, w, reading, RunLog(c, w, actions))
    ensures Happenings(RunLog(c, w, actions)) == OutsideEvents(actions)
    decreases |actions|
  {
    RunHappens(c, w, actions);
    if actions != [] {
      var v := Next(c, w, actions[0]);
      var x, y := ActionLog(c, w, actions[0]), RunLog(c, v, actions[1..]);
      ActionCalls(c, w, actions[0], reading);
      RunCalls(c, v, actions[1..], Reading(reading, x));
      PlayThen(c, w, reading, x, y);
    }
  }

  // ----- Outsiders who leave the object alone -----

  /** An outsider's change to the object itself. */
  predicate Touches(e: Event, k: Key) {
    (e.change.PutObject? || e.change.RemoveObject?) && e.change.key == k
  }

  ghost predicate Spared(w: World, k: Key) {
    forall t, e | t in w.schedule && e in t.outside :: !Touches(e, k)
  }

  ghost predicate EventsSpare(calls: seq<Call>, k: Key) {
    forall call | call in calls && call.Happen? :: !Touches(call.e, k)
  }

  ghost predicate RunSpares(actions: seq<Action>, k: Key) {
    forall a | a in actions && a.Outside? :: !Touches(a.e, k)
  }

  lemma {:induction false} RunLogSpares(c: Config, w: World, actions: seq<Action>, k: Key)
    requires RunSpares(actions, k)
    ensures EventsSpare(RunLog(c, w, actions), k)
    decreases |actions|
  {
    if actions != [] {
      RunLogSpares(c, Next(c, w, actions[0]), actions[1..], k);
      assert actions[0] in actions;
      match actions[0]
      case Outside(e) =>
      case Process(r) => WorkLogSpares(c, w, r, k);
    }
  }

  lemma WorkLogSpares(c: Config, w: World, r: Request, k: Key)
    ensures EventsSpare(WorkLog(c, w, r), k)
  {
    WorkCalls(c, w, r, None);
    forall call | call in WorkLog(c, w, r) ensures !call.Happen? {
      assert TurnCall(call, r);
    }
  }

  // ----- Survival -----

  /** The object is there before and after every single call. */
  predicate Stands(w: World, calls: seq<Call>, k: Key)
    decreases |calls|
  {
    k in w.objs && (calls != [] ==> Stands(Made(w, calls[0]), calls[1..], k))
  }

  /** What the operator merged into the object, in order. */
  function Merged(c: Config, calls: seq<Call>, k: Key): seq<Meta> {
    if calls == [] then []
    else if calls[0].Put? && calls[0].key == k then [Aim(c, calls[0].why)] + Merged(c, calls[1..], k)
    else Merged(c, calls[1..], k)
  }

  /** Labels and annotations are overridden by what was merged and otherwise as they were; so are
      owner, the foreign entries of a ConfigMap and the content of a Secret. */
  ghost predicate Survives(k: Key, before: Obj, after: Obj, merged: seq<Meta>) {
    Overridden(before.meta.labels.Content(), after.meta.labels.Content(), LabelsOf(merged)) &&
    Overridden(before.meta.annotations.Content(), after.meta.annotations.Content(), AnnotationsOf(merged)) &&
    after.meta.owner == before.meta.owner && after.meta.rest == before.meta.rest &&
    (k.kind.ConfigMap? ==> ForeignData(after) == ForeignData(before)) &&
    (k.kind.Secret? ==> SecretContent(after) == SecretContent(before))
  }

  lemma EditThenSurvives(k: Key, before: Obj, mid: Obj, after: Obj, aim: Meta, merged: seq<Meta>)
    requires Edited(k, before, mid, aim) && Survives(k, mid, after, merged)
    ensures Survives(k, before, after, [aim] + merged)
  {
    OverriddenThen(before.meta.labels.Content(), aim.labels.Content(), after.meta.labels.Content(), LabelsOf(merged));
    OverriddenThen(before.meta.annotations.Content(), aim.annotations.Content(), after.meta.annotations.Content(),
                   AnnotationsOf(merged));
    assert LabelsOf([aim] + merged) == [aim.labels.Content()] + LabelsOf(merged);
    assert AnnotationsOf([aim] + merged) == [aim.annotations.Content()] + AnnotationsOf(merged);
  }

  lemma {:induction false} EventsLeave(w: World, events: seq<Event>, k: Key)
    requires forall e | e in events :: !Touches(e, k)
    ensures ApplyAll(w, events).Lookup(k) == w.Lookup(k) && ApplyAll(w, events).schedule == w.schedule
    decreases |events|
  {
    if events != [] {
      assert !Touches(events[0], k);
      EventsLeave(ApplyChange(w, events[0].change, events[0].notified), events[1..], k);
    }
  }

  lemma BeginLeaves(w: World, k: Key)
    requires Spared(w, k)
    ensures Begin(w).Lookup(k) == w.Lookup(k) && Spared(Begin(w), k)
  {
    if !w.Quiet() {
      assert w.schedule[0] in w.schedule;
      EventsLeave(w.(schedule := w.schedule[1..], now := w.now + w.schedule[0].elapsed), w.schedule[0].outside, k);
    }
  }

  /** What one call does to the object. */
  lemma CallLeaves(w: World, call: Call, k: Key)
    requires Spared(w, k) && (call.Happen? ==> !Touches(call.e, k))
    ensures Spared(Made(w, call), k)
    ensures Made(w, call).Lookup(k) ==
            if call.Put? && call.key == k then Some(call.obj)
            else if call.Drop? && call.key == k then None
            else w.Lookup(k)
  {
    BeginLeaves(w, k);
    if call.Happen? {
      EventsLeave(w, [call.e], k);
      assert [call.e][1..] == [];
    }
  }

  lemma {:induction false} EditsSurvive(c: Config, w: World, reading: Option<(Request, Spec)>, calls: seq<Call>, k: Key)
    requires Fair(c, w, reading, calls) && Spared(w, k) && EventsSpare(calls, k) && Stands(w, calls, k)
    ensures k in Play(w, calls).objs && Survives(k, w.objs[k], Play(w, calls).objs[k], Merged(c, calls, k))
    decreases |calls|
  {
    if calls != [] {
      var call, w1 := calls[0], Made(w, calls[0]);
      CallLeaves(w, call, k);
      BeginLeaves(w, k);
      assert EventsSpare(calls[1..], k);
      EditsSurvive(c, w1, ReadBy(reading, call), calls[1..], k);
      assert w1.Lookup(k) == Some(w1.objs[k]);
      if call.Put? && call.key == k {
        EditThenSurvives(k, w.objs[k], w1.objs[k], Play(w, calls).objs[k], Aim(c, call.why), Merged(c, calls[1..], k));
      }
    }
  }

  /** An object that is there stands throughout exactly if no call deletes it. */
  lemma {:induction false} StandsUnlessDropped(c: Config, w: World, calls: seq<Call>, k: Key)
    requires Spared(w, k) && EventsSpare(calls, k) && k in w.objs
    ensures Stands(w, calls, k) <==> Drop(k) !in calls
    decreases |calls|
  {
    if calls != [] {
      CallLeaves(w, calls[0], k);
      assert EventsSpare(calls[1..], k);
      var w1 := Made(w, calls[0]);
      if w1.Lookup(k).Some? {
        StandsUnlessDropped(c, w1, calls[1..], k);
      }
    }
  }

  /** Over every run in which no outsider touches the object, whatever else outsiders do and
      whichever calls fail: unless one of the run's calls deletes it, every key it had is still
      there, each key the operator merged has the value of the last merge that names it, and all
      else is as it was. */
  lemma UserEditsSurvive(c: Config, w: World, actions: seq<Action>, k: Key)
    requires Spared(w, k) && RunSpares(actions, k) && k in w.objs && Drop(k) !in RunLog(c, w, actions)
    ensures k in Run(c, w, actions).objs
    ensures Survives(k, w.objs[k], Run(c, w, actions).objs[k], Merged(c, RunLog(c, w, actions), k))
  {
    var calls := RunLog(c, w, actions);
    RunCalls(c, w, actions, None);
    RunLogSpares(c, w, actions, k);
    StandsUnlessDropped(c, w, calls, k);
    EditsSurvive(c, w, None, calls, k);
  }

  lemma {:induction false} KeptKindIsNotDropped(c: Config, w: World, reading: Option<(Request, Spec)>, calls: seq<Call>,
                                                k: Key)
    requires Fair(c, w, reading, calls) && !IsDeletedKind(k.kind)
    ensures Drop(k) !in calls
    decreases |calls|
  {
    if calls != [] {
      KeptKindIsNotDropped(c, Made(w, calls[0]), ReadBy(reading, calls[0]), calls[1..], k);
    }
  }

  /** ServiceAccounts, ConfigMaps and Services are never deleted: theirs survive unconditionally. */
  lemma KeptKindsSurvive(c: Config, w: World, actions: seq<Action>, k: Key)
    requires Spared(w, k) && RunSpares(actions, k) && k in w.objs && !IsDeletedKind(k.kind)
    ensures k in Run(c, w, actions).objs
    ensures Survives(k, w.objs[k], Run(c, w, actions).objs[k], Merged(c, RunLog(c, w, actions), k))
  {
    RunCalls(c, w, actions, None);
    KeptKindIsNotDropped(c, w, None, RunLog(c, w, actions), k);
    UserEditsSurvive(c, w, actions, k);
  }
}
