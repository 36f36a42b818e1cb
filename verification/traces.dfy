/** Every stage as a sequence of API calls, whatever outsiders do in between and whichever
    calls fail: what each call keeps, each stage keeps. */
module Traces {
  import opened GoTypes
  import opened RolloutManagers
  import opened Metadata
  import opened Cluster
  import opened Operator
  import opened Settling
  import Deployments

  /** What a write is for. */
  datatype Purpose = Purpose(r: Request, spec: Spec, stage: Stage)

  /** An API call with the effect it had (a refused write is no more than a look), a step of
      the worker on its queue, or an outsider's change between two turns. */
  datatype Call =
    | Look
    | Read(r: Request, spec: Spec)
    | Put(key: Key, obj: Obj, why: Purpose)
    | Drop(key: Key)
    | Evict(ns: string, name: string)
    | Mark(r: Request, status: Status)
    | Take(r: Request)
    | Return(r: Request)
    | Happen(e: Event)

  function Made(w: World, call: Call): World {
    match call
    case Look => Begin(w)
    case Read(_, _) => Begin(w)
    case Put(k, obj, _) => SetObject(Begin(w), k, Some(obj), NextNotified(w))
    case Drop(k) => SetObject(Begin(w), k, None, NextNotified(w))
    case Evict(ns, name) => Begin(w).(pods := WithoutPod(Begin(w).pods, ns, name))
    case Mark(r, status) => Marked(Begin(w), r, status)
    case Take(r) => w.(queue := w.queue - {r})
    case Return(r) => w.(queue := w.queue + {r})
    case Happen(e) => ApplyChange(w, e.change, e.notified)
  }

  function Marked(w: World, r: Request, status: Status): World {
    if r !in w.rms then w else w.(rms := w.rms[r := w.rms[r].(status := status)], queue := w.queue + {r})
  }

  function Play(w: World, calls: seq<Call>): World
    decreases |calls|
  {
    if calls == [] then w else Play(Made(w, calls[0]), calls[1..])
  }

  // ----- What is written -----

  /** The metadata a write merges into a live object; a live ConfigMap keeps its own. */
  function Aim(c: Config, why: Purpose): Meta {
    match why.stage
    case ConfigMapStage => BARE_META
    case _ => Expected(c, why.r, why.spec, why.stage).meta
  }

  const PLUGIN_KEYS := {TRAFFIC_KEY, METRIC_KEY, OLD_METRIC_KEY}

  /** The entries of a ConfigMap that are not the operator's. */
  function ForeignData(o: Obj): map<string, Text> {
    Entries(DataOf(o)) - PLUGIN_KEYS
  }

  function SecretContent(o: Obj): Option<Opaque> {
    if o.body.SecretBody? then Some(o.body.content) else None
  }

  /** A live object with `aim` merged into its metadata; of its own it loses nothing. */
  ghost predicate Edited(k: Key, live: Obj, after: Obj, aim: Meta) {
    after.meta.labels.Content() == live.meta.labels.Content() + aim.labels.Content() &&
    after.meta.annotations.Content() == live.meta.annotations.Content() + aim.annotations.Content() &&
    after.meta.owner == live.meta.owner && after.meta.rest == live.meta.rest &&
    (k.kind.ConfigMap? ==> ForeignData(after) == ForeignData(live)) &&
    (k.kind.Secret? ==> SecretContent(after) == SecretContent(live))
  }

  ghost predicate Created(after: Obj, expected: Meta) {
    after.meta.labels.Content() == expected.labels.Content() &&
    after.meta.annotations.Content() == expected.annotations.Content() && after.meta.owner == expected.owner
  }

  /** Kinds of objects the operator may delete. */
  predicate IsDeletedKind(kind: Kind) {
    !kind.ServiceAccount? && !kind.ConfigMap? && !kind.Service?
  }

  /** The call is one the operator makes while it works on the RolloutManager it has read. */
  ghost predicate Fits(c: Config, w: World, reading: Option<(Request, Spec)>, call: Call) {
    match call
    case Read(r, spec) => r in Begin(w).rms && Begin(w).rms[r].spec == spec
    case Put(k, obj, why) =>
      k == KeyOf(why.r, why.stage) && reading == Some((why.r, why.spec)) &&
      (if k in Begin(w).objs then Edited(k, Begin(w).objs[k], obj, Aim(c, why))
       else Created(obj, Expected(c, why.r, why.spec, why.stage).meta))
    case Drop(k) => IsDeletedKind(k.kind)
    case Mark(r, _) => reading.Some? && reading.value.0 == r
    case Take(r) => r in w.queue
    case _ => true
  }

  function ReadBy(reading: Option<(Request, Spec)>, call: Call): Option<(Request, Spec)> {
    match call
    case Read(r, spec) => Some((r, spec))
    case Take(_) => None
    case _ => reading
  }

  function Reading(reading: Option<(Request, Spec)>, calls: seq<Call>): Option<(Request, Spec)>
    decreases |calls|
  {
    if calls == [] then reading else Reading(ReadBy(reading, calls[0]), calls[1..])
  }

  /** Every call fits, in the world in which it is made. */
  ghost predicate Fair(c: Config, w: World, reading: Option<(Request, Spec)>, calls: seq<Call>)
    decreases |calls|
  {
    calls == [] ||
    (Fits(c, w, reading, calls[0]) && Fair(c, Made(w, calls[0]), ReadBy(reading, calls[0]), calls[1..]))
  }

  lemma {:induction false} PlayThen(c: Config, w: World, reading: Option<(Request, Spec)>, x: seq<Call>, y: seq<Call>)
    ensures Play(w, x + y) == Play(Play(w, x), y)
    ensures Fair(c, w, reading, x) && Fair(c, Play(w, x), Reading(reading, x), y) ==> Fair(c, w, reading, x + y)
    ensures Reading(reading, x + y) == Reading(Reading(reading, x), y)
    decreases |x|
  {
    if x == [] {
      assert x + y == y;
    } else {
      PlayThen(c, Made(w, x[0]), ReadBy(reading, x[0]), x[1..], y);
      assert (x + y)[1..] == x[1..] + y;
    }
  }

  /** Calls of a stage: they put and delete only these objects, and read no RolloutManager. */
  ghost predicate StageCall(call: Call, puts: set<Key>, drops: set<Key>) {
    match call
    case Look => true
    case Put(k, _, _) => k in puts
    case Drop(k) => k in drops
    case Evict(_, _) => true
    case _ => false
  }

  ghost predicate StageOnly(calls: seq<Call>, puts: set<Key>, drops: set<Key>) {
    forall call | call in calls :: StageCall(call, puts, drops)
  }

  /** What is shown of the calls of a stage that works on `r` with `spec`. */
  ghost predicate Orderly(c: Config, w: World, r: Request, spec: Spec, calls: seq<Call>, puts: set<Key>,
                          drops: set<Key>) {
    Fair(c, w, Some((r, spec)), calls) && StageOnly(calls, puts, drops)
  }

  lemma {:induction false} ReadingStays(reading: Option<(Request, Spec)>, calls: seq<Call>, puts: set<Key>,
                                        drops: set<Key>)
    requires StageOnly(calls, puts, drops)
    ensures Reading(reading, calls) == reading
    decreases |calls|
  {
    if calls != [] {
      assert StageCall(calls[0], puts, drops);
      ReadingStays(reading, calls[1..], puts, drops);
    }
  }

  /** Calls after calls. */
  lemma OrderlyThen(c: Config, w: World, r: Request, spec: Spec, x: seq<Call>, y: seq<Call>, puts: set<Key>,
                    drops: set<Key>)
    requires Orderly(c, w, r, spec, x, puts, drops) && Orderly(c, Play(w, x), r, spec, y, puts, drops)
    ensures Play(w, x + y) == Play(Play(w, x), y) && Orderly(c, w, r, spec, x + y, puts, drops)
  {
    ReadingStays(Some((r, spec)), x, puts, drops);
    PlayThen(c, w, Some((r, spec)), x, y);
  }

  lemma LookThen(c: Config, w: World, r: Request, spec: Spec, rest: seq<Call>, puts: set<Key>, drops: set<Key>)
    requires Orderly(c, Begin(w), r, spec, rest, puts, drops)
    ensures Play(w, [Look] + rest) == Play(Begin(w), rest) && Orderly(c, w, r, spec, [Look] + rest, puts, drops)
  {
    assert ([Look] + rest)[1..] == rest;
  }

  lemma OneCall(c: Config, w: World, r: Request, spec: Spec, call: Call, puts: set<Key>, drops: set<Key>)
    requires StageCall(call, puts, drops) && Fits(c, w, Some((r, spec)), call)
    ensures Play(w, [call]) == Made(w, call) && Orderly(c, w, r, spec, [call], puts, drops)
  {
    assert [call][1..] == [];
  }

  // ----- One call -----

  predicate Creates(w: World, k: Key) {
    NextFault(w) != Refused && k !in Begin(w).objs
  }

  predicate Updates(w: World, k: Key, fetched: Obj, obj: Obj) {
    NextFault(w) != Refused && Begin(w).Lookup(k) == Some(fetched) && !ChangesSelector(k, fetched, obj)
  }

  predicate Deletes(w: World, k: Key) {
    NextFault(w) != Refused && k in Begin(w).objs
  }

  function Target(why: Purpose): Key {
    KeyOf(why.r, why.stage)
  }

  function CreateLog(w: World, obj: Obj, why: Purpose): seq<Call> {
    [if Creates(w, Target(why)) then Put(Target(why), Stored(obj), why) else Look]
  }

  function UpdateLog(w: World, fetched: Obj, obj: Obj, why: Purpose): seq<Call> {
    [if Updates(w, Target(why), fetched, obj) then Put(Target(why), Stored(obj), why) else Look]
  }

  function DeleteLog(w: World, k: Key): seq<Call> {
    [if Deletes(w, k) then Drop(k) else Look]
  }

  function DeletePodLog(w: World, ns: string, name: string): seq<Call> {
    [if NextFault(w) != Refused && HasPod(Begin(w).pods, ns, name) then Evict(ns, name) else Look]
  }

  lemma CreateCalls(c: Config, w: World, obj: Obj, why: Purpose, drops: set<Key>)
    requires Created(Stored(obj), Expected(c, why.r, why.spec, why.stage).meta)
    ensures Create(w, Target(why), obj).0 == Play(w, CreateLog(w, obj, why))
    ensures Orderly(c, w, why.r, why.spec, CreateLog(w, obj, why), {Target(why)}, drops)
  {
    OneCall(c, w, why.r, why.spec, CreateLog(w, obj, why)[0], {Target(why)}, drops);
  }

  lemma UpdateCalls(c: Config, w: World, fetched: Obj, obj: Obj, why: Purpose, drops: set<Key>)
    requires Edited(Target(why), fetched, Stored(obj), Aim(c, why))
    ensures Update(w, Target(why), fetched, obj).0 == Play(w, UpdateLog(w, fetched, obj, why))
    ensures Orderly(c, w, why.r, why.spec, UpdateLog(w, fetched, obj, why), {Target(why)}, drops)
  {
    OneCall(c, w, why.r, why.spec, UpdateLog(w, fetched, obj, why)[0], {Target(why)}, drops);
  }

  lemma DeleteCalls(c: Config, w: World, r: Request, spec: Spec, k: Key, puts: set<Key>, drops: set<Key>)
    requires IsDeletedKind(k.kind) && k in drops
    ensures Delete(w, k).0 == Play(w, DeleteLog(w, k)) && Orderly(c, w, r, spec, DeleteLog(w, k), puts, drops)
  {
    OneCall(c, w, r, spec, DeleteLog(w, k)[0], puts, drops);
  }

  lemma DeletePodCalls(c: Config, w: World, r: Request, spec: Spec, ns: string, name: string, puts: set<Key>)
    ensures DeletePod(w, ns, name).0 == Play(w, DeletePodLog(w, ns, name))
    ensures Orderly(c, w, r, spec, DeletePodLog(w, ns, name), puts, {})
  {
    OneCall(c, w, r, spec, DeletePodLog(w, ns, name)[0], puts, {});
  }

  // ----- The stages -----

  /** The stages that create or repair an object and leave its own content alone. */
  predicate IsPlain(s: Stage) {
    !s.ConfigMapStage? && !s.DeploymentStage?
  }

  lemma RepairKeepsMeta(c: Config, r: Request, spec: Spec, s: Stage, live: Meta)
    ensures var expected := Expected(c, r, spec, s).meta;
            var after := StoredMeta(MergedMeta(live, expected, spec));
            after.labels.Content() == live.labels.Content() + expected.labels.Content() &&
            after.annotations.Content() == live.annotations.Content() + expected.annotations.Content() &&
            after.owner == live.owner && after.rest == live.rest
  {
    MergeContent(live, Expected(c, r, spec, s).meta, spec);
  }

  lemma RepairKeepsContent(live: Obj, expected: Obj, spec: Spec)
    requires expected.body.SecretBody?
    ensures SecretContent(Stored(Repaired(live, expected, spec))) == SecretContent(live)
  {
  }

  lemma RepairIsEdit(c: Config, r: Request, spec: Spec, s: Stage, live: Obj)
    requires IsPlain(s)
    ensures Edited(KeyOf(r, s), live, Stored(Repaired(live, Expected(c, r, spec, s), spec)),
                   Aim(c, Purpose(r, spec, s)))
  {
    RepairKeepsMeta(c, r, spec, s, live.meta);
    if s.SecretStage? {
      RepairKeepsContent(live, Expected(c, r, spec, s), spec);
    }
  }

  function Wanted(c: Config, why: Purpose): Obj {
    Expected(c, why.r, why.spec, why.stage)
  }

  function EnsureLog(c: Config, w: World, why: Purpose): seq<Call> {
    var (w1, live) := Get(w, Target(why));
    [Look] + (
    if live == Err(NotFound) then CreateLog(w1, Wanted(c, why), why)
    else if live.Ok? && NeedsUpdate(live.value, Wanted(c, why), why.spec) then
      UpdateLog(w1, live.value, Repaired(live.value, Wanted(c, why), why.spec), why)
    else [])
  }

  lemma EnsureCalls(c: Config, w: World, why: Purpose, drops: set<Key>)
    requires IsPlain(why.stage)
    ensures Ensure(w, Target(why), Wanted(c, why), why.spec).0 == Play(w, EnsureLog(c, w, why))
    ensures Orderly(c, w, why.r, why.spec, EnsureLog(c, w, why), {Target(why)}, drops)
  {
    var (w1, live) := Get(w, Target(why));
    if live == Err(NotFound) {
      CreateCalls(c, w1, Wanted(c, why), why, drops);
    } else if live.Ok? && NeedsUpdate(live.value, Wanted(c, why), why.spec) {
      RepairIsEdit(c, why.r, why.spec, why.stage, live.value);
      UpdateCalls(c, w1, live.value, Repaired(live.value, Wanted(c, why), why.spec), why, drops);
    }
    LookThen(c, w, why.r, why.spec, EnsureLog(c, w, why)[1..], {Target(why)}, drops);
    assert EnsureLog(c, w, why) == [Look] + EnsureLog(c, w, why)[1..];
  }

  /** A look, and a deletion if it finds something to delete. */
  function LookAndDeleteLog(w: World, k: Key, deleted: bool): seq<Call> {
    [Look] + (if deleted then DeleteLog(Begin(w), k) else [])
  }

  lemma LookAndDelete(c: Config, w: World, r: Request, spec: Spec, k: Key, deleted: bool, puts: set<Key>)
    requires IsDeletedKind(k.kind)
    ensures (if deleted then Delete(Begin(w), k).0 else Begin(w)) == Play(w, LookAndDeleteLog(w, k, deleted))
    ensures Orderly(c, w, r, spec, LookAndDeleteLog(w, k, deleted), puts, {k})
  {
    if deleted {
      DeleteCalls(c, Begin(w), r, spec, k, puts, {k});
    }
    LookThen(c, w, r, spec, if deleted then DeleteLog(Begin(w), k) else [], puts, {k});
  }

  /** The objects a stage may delete. */
  function Drops(r: Request, s: Stage): set<Key> {
    match s
    case SecretStage => {KeyOf(r, s)}
    case DeploymentStage => {KeyOf(r, s)}
    case NetworkPolicyStage => {KeyOf(r, s)}
    case _ => match OppositeKey(r, s) case Some(k) => {k} case None => {}
  }

  function ScopedLog(c: Config, w: World, opposite: Key, why: Purpose): seq<Call> {
    var (w1, o) := DropOpposite(w, opposite);
    LookAndDeleteLog(w, opposite, Get(w, opposite).1.Ok?) + (if o == Done then EnsureLog(c, w1, why) else [])
  }

  function ObjectLog(c: Config, w: World, why: Purpose): seq<Call> {
    match OppositeKey(why.r, why.stage)
    case None => EnsureLog(c, w, why)
    case Some(opposite) => ScopedLog(c, w, opposite, why)
  }

  lemma ObjectCalls(c: Config, w: World, why: Purpose)
    requires IsPlain(why.stage) && !why.stage.SecretStage? && !why.stage.NetworkPolicyStage?
    ensures RunObject(c, w, why.r, why.spec, why.stage).0 == Play(w, ObjectLog(c, w, why))
    ensures Orderly(c, w, why.r, why.spec, ObjectLog(c, w, why), {Target(why)}, Drops(why.r, why.stage))
  {
    match OppositeKey(why.r, why.stage)
    case None => EnsureCalls(c, w, why, {});
    case Some(opposite) =>
      var first := LookAndDeleteLog(w, opposite, Get(w, opposite).1.Ok?);
      LookAndDelete(c, w, why.r, why.spec, opposite, Get(w, opposite).1.Ok?, {Target(why)});
      var (w1, o) := DropOpposite(w, opposite);
      EnsureCalls(c, w1, why, {opposite});
      OrderlyThen(c, w, why.r, why.spec, first,
                  if o == Done then EnsureLog(c, w1, why) else [], {Target(why)}, {opposite});
  }

  function SecretLog(c: Config, w: World, r: Request, spec: Spec): seq<Call> {
    var live := Get(w, KeyOf(r, SecretStage)).1;
    if spec.skipNotificationSecret then
      LookAndDeleteLog(w, KeyOf(r, SecretStage), live.Ok? && ControlledBy(live.value, r))
    else EnsureLog(c, w, Purpose(r, spec, SecretStage))
  }

  lemma SecretCalls(c: Config, w: World, r: Request, spec: Spec)
    ensures RunSecret(c, w, r, spec).0 == Play(w, SecretLog(c, w, r, spec))
    ensures Orderly(c, w, r, spec, SecretLog(c, w, r, spec), {KeyOf(r, SecretStage)}, {KeyOf(r, SecretStage)})
  {
    var k := KeyOf(r, SecretStage);
    if spec.skipNotificationSecret {
      var live := Get(w, k).1;
      LookAndDelete(c, w, r, spec, k, live.Ok? && ControlledBy(live.value, r), {k});
    } else {
      EnsureCalls(c, w, Purpose(r, spec, SecretStage), {k});
    }
  }

  function PolicyLog(c: Config, w: World, r: Request, spec: Spec): seq<Call> {
    if spec.NetworkPolicyEnabled() then EnsureLog(c, w, Purpose(r, spec, NetworkPolicyStage))
    else LookAndDeleteLog(w, KeyOf(r, NetworkPolicyStage), Get(w, KeyOf(r, NetworkPolicyStage)).1.Ok?)
  }

  lemma PolicyCalls(c: Config, w: World, r: Request, spec: Spec)
    ensures RunNetworkPolicy(c, w, r, spec).0 == Play(w, PolicyLog(c, w, r, spec))
    ensures Orderly(c, w, r, spec, PolicyLog(c, w, r, spec), {KeyOf(r, NetworkPolicyStage)},
                    {KeyOf(r, NetworkPolicyStage)})
  {
    var k := KeyOf(r, NetworkPolicyStage);
    if spec.NetworkPolicyEnabled() {
      EnsureCalls(c, w, Purpose(r, spec, NetworkPolicyStage), {k});
    } else {
      LookAndDelete(c, w, r, spec, k, Get(w, k).1.Ok?, {k});
    }
  }

  function DeletePodsLog(w: World, pods: seq<Pod>): seq<Call>
    decreases |pods|
  {
    if pods == [] then []
    else if pods[0].deleting then DeletePodsLog(w, pods[1..])
    else
      var (w1, e) := DeletePod(w, pods[0].ns, pods[0].name);
      DeletePodLog(w, pods[0].ns, pods[0].name) +
      (if e.Some? && e.value != NotFound then [] else DeletePodsLog(w1, pods[1..]))
  }

  lemma {:induction false} DeletePodsCalls(c: Config, w: World, r: Request, spec: Spec, pods: seq<Pod>, puts: set<Key>)
    ensures DeletePods(w, pods).0 == Play(w, DeletePodsLog(w, pods))
    ensures Orderly(c, w, r, spec, DeletePodsLog(w, pods), puts, {})
    decreases |pods|
  {
    if pods != [] {
      if pods[0].deleting {
        DeletePodsCalls(c, w, r, spec, pods[1..], puts);
      } else {
        var first := DeletePodLog(w, pods[0].ns, pods[0].name);
        DeletePodCalls(c, w, r, spec, pods[0].ns, pods[0].name, puts);
        var (w1, e) := DeletePod(w, pods[0].ns, pods[0].name);
        DeletePodsCalls(c, w1, r, spec, pods[1..], puts);
        OrderlyThen(c, w, r, spec, first,
                    if e.Some? && e.value != NotFound then [] else DeletePodsLog(w1, pods[1..]), puts, {});
      }
    }
  }

  /** The part of a restart that lists and deletes the selected pods. */
  function SelectedLog(w: World, r: Request, live: Result<Obj, ApiError>): seq<Call> {
    if live.Err? || AsDeployment(live.value).spec.selector.None? then []
    else
      var (w1, pods) := ListPods(w, r.ns, AsDeployment(live.value).spec.selector.value.matchLabels.Content());
      [Look] + (if pods.Ok? then DeletePodsLog(w1, pods.value) else [])
  }

  function RestartLog(w: World, r: Request): seq<Call> {
    var (w1, live) := Get(w, KeyOf(r, DeploymentStage));
    [Look] + SelectedLog(w1, r, live)
  }

  lemma RestartCalls(c: Config, w: World, r: Request, spec: Spec, puts: set<Key>)
    ensures RestartPods(w, r).0 == Play(w, RestartLog(w, r)) && Orderly(c, w, r, spec, RestartLog(w, r), puts, {})
  {
    var (w1, live) := Get(w, KeyOf(r, DeploymentStage));
    if live.Ok? && AsDeployment(live.value).spec.selector.Some? {
      var (w2, pods) := ListPods(w1, r.ns, AsDeployment(live.value).spec.selector.value.matchLabels.Content());
      if pods.Ok? {
        DeletePodsCalls(c, w2, r, spec, pods.value, puts);
      }
      LookThen(c, w1, r, spec, if pods.Ok? then DeletePodsLog(w2, pods.value) else [], puts, {});
    }
    LookThen(c, w, r, spec, SelectedLog(w1, r, live), puts, {});
  }

  function RewriteLog(w: World, r: Request, spec: Spec, live: Obj, fixed: Obj): seq<Call> {
    var (w1, e) := Update(w, KeyOf(r, ConfigMapStage), live, fixed);
    UpdateLog(w, live, fixed, Purpose(r, spec, ConfigMapStage)) + (if e.None? then RestartLog(w1, r) else [])
  }

  lemma RewriteCalls(c: Config, w: World, r: Request, spec: Spec, live: Obj, fixed: Obj)
    requires Edited(KeyOf(r, ConfigMapStage), live, Stored(fixed), BARE_META)
    ensures RewriteConfig(w, r, live, fixed).0 == Play(w, RewriteLog(w, r, spec, live, fixed))
    ensures Orderly(c, w, r, spec, RewriteLog(w, r, spec, live, fixed), {KeyOf(r, ConfigMapStage)}, {})
  {
    var why := Purpose(r, spec, ConfigMapStage);
    UpdateCalls(c, w, live, fixed, why, {});
    var (w1, e) := Update(w, KeyOf(r, ConfigMapStage), live, fixed);
    RestartCalls(c, w1, r, spec, {Target(why)});
    OrderlyThen(c, w, r, spec, UpdateLog(w, live, fixed, why),
                if e.None? then RestartLog(w1, r) else [], {Target(why)}, {});
  }

  /** Rewriting the plugin data leaves metadata and all other data as they are. */
  lemma RewriteIsEdit(c: Config, r: Request, spec: Spec, live: Obj)
    ensures Edited(KeyOf(r, ConfigMapStage), live, Stored(RepairedConfig(live, c, spec)), BARE_META)
  {
    var fixed := RepairedConfig(live, c, spec);
    StoredConfig(c, spec, fixed);
    var entries := Entries(DataOf(live));
    assert PluginData(c, spec).Keys <= PLUGIN_KEYS;
    assert ((entries - {OLD_METRIC_KEY}) + PluginData(c, spec)) - PLUGIN_KEYS == entries - PLUGIN_KEYS;
    assert live.meta.labels.Content() + map[] == live.meta.labels.Content();
    assert live.meta.annotations.Content() + map[] == live.meta.annotations.Content();
  }

  function RepairConfigLog(c: Config, w: World, r: Request, spec: Spec, live: Obj): seq<Call> {
    if DataProblem(DataOf(live)).Some? || !PluginsDiffer(DataOf(live), c, spec) || DataOf(live).NilData? then []
    else RewriteLog(w, r, spec, live, RepairedConfig(live, c, spec))
  }

  lemma RepairConfigCalls(c: Config, w: World, r: Request, spec: Spec, live: Obj)
    ensures RepairConfig(c, w, r, spec, live).0 == Play(w, RepairConfigLog(c, w, r, spec, live))
    ensures Orderly(c, w, r, spec, RepairConfigLog(c, w, r, spec, live), {KeyOf(r, ConfigMapStage)}, {})
  {
    if !(DataProblem(DataOf(live)).Some? || !PluginsDiffer(DataOf(live), c, spec) || DataOf(live).NilData?) {
      RewriteIsEdit(c, r, spec, live);
      RewriteCalls(c, w, r, spec, live, RepairedConfig(live, c, spec));
    }
  }

  function ConfigMapLog(c: Config, w: World, r: Request, spec: Spec): seq<Call> {
    if PluginProblem(c, spec).Some? then []
    else
      var why := Purpose(r, spec, ConfigMapStage);
      var (w1, live) := Get(w, Target(why));
      [Look] + (
      if live == Err(NotFound) then CreateLog(w1, Wanted(c, why), why)
      else if live.Ok? then RepairConfigLog(c, w1, r, spec, live.value)
      else [])
  }

  lemma ConfigMapCalls(c: Config, w: World, r: Request, spec: Spec)
    ensures RunConfigMap(c, w, r, spec).0 == Play(w, ConfigMapLog(c, w, r, spec))
    ensures Orderly(c, w, r, spec, ConfigMapLog(c, w, r, spec), {KeyOf(r, ConfigMapStage)}, {})
  {
    if PluginProblem(c, spec).None? {
      var why := Purpose(r, spec, ConfigMapStage);
      var (w1, live) := Get(w, Target(why));
      var rest: seq<Call> := [];
      if live == Err(NotFound) {
        CreateCalls(c, w1, Wanted(c, why), why, {});
        rest := CreateLog(w1, Wanted(c, why), why);
      } else if live.Ok? {
        RepairConfigCalls(c, w1, r, spec, live.value);
        rest := RepairConfigLog(c, w1, r, spec, live.value);
      }
      LookThen(c, w, r, spec, rest, {Target(why)}, {});
    }
  }

  function CreateDeploymentLog(w: World, desired: Deployments.Deployment, why: Purpose): seq<Call> {
    CreateLog(w, AsObj(desired.(meta := desired.meta.(owner := Some(Owner(true, why.r.name))))), why)
  }

  lemma CreateDeploymentCalls(c: Config, w: World, desired: Deployments.Deployment, why: Purpose)
    requires desired.meta == DefaultMeta(why.spec) && why.stage.DeploymentStage?
    ensures CreateDeployment(w, why.r, desired).0 == Play(w, CreateDeploymentLog(w, desired, why))
    ensures Orderly(c, w, why.r, why.spec, CreateDeploymentLog(w, desired, why), {Target(why)}, {Target(why)})
  {
    CreateCalls(c, w, AsObj(desired.(meta := desired.meta.(owner := Some(Owner(true, why.r.name))))), why,
                {Target(why)});
  }

  lemma OverwritingIsEdit(c: Config, r: Request, spec: Spec, live: Obj, desired: Deployments.Deployment)
    requires desired.meta == DefaultMeta(spec)
    ensures Edited(KeyOf(r, DeploymentStage), live, Stored(AsObj(Deployments.Overwritten(AsDeployment(live), desired))),
                   Aim(c, Purpose(r, spec, DeploymentStage)))
  {
  }

  function FixDeploymentLog(w: World, live: Obj, desired: Deployments.Deployment, recreated: bool,
                            why: Purpose): seq<Call> {
    if recreated then
      var (w1, e) := Delete(w, Target(why));
      DeleteLog(w, Target(why)) + (if e.None? then CreateDeploymentLog(w1, desired, why) else [])
    else UpdateLog(w, live, AsObj(Deployments.Overwritten(AsDeployment(live), desired)), why)
  }

  lemma FixDeploymentCalls(c: Config, w: World, live: Obj, desired: Deployments.Deployment,
                           have: Deployments.Deployment, want: Deployments.Deployment, recreated: bool, why: Purpose)
    requires desired.meta == DefaultMeta(why.spec) && why.stage.DeploymentStage?
    requires recreated <==> have.spec.selector != want.spec.selector
    ensures FixDeployment(w, why.r, live, desired, have, want).0 ==
            Play(w, FixDeploymentLog(w, live, desired, recreated, why))
    ensures Orderly(c, w, why.r, why.spec, FixDeploymentLog(w, live, desired, recreated, why), {Target(why)},
                    {Target(why)})
  {
    var k := Target(why);
    if recreated {
      DeleteCalls(c, w, why.r, why.spec, k, {k}, {k});
      var (w1, e) := Delete(w, k);
      CreateDeploymentCalls(c, w1, desired, why);
      OrderlyThen(c, w, why.r, why.spec, DeleteLog(w, k),
                  if e.None? then CreateDeploymentLog(w1, desired, why) else [], {k}, {k});
    } else {
      OverwritingIsEdit(c, why.r, why.spec, live, desired);
      UpdateCalls(c, w, live, AsObj(Deployments.Overwritten(AsDeployment(live), desired)), why, {k});
    }
  }

  function DriveLog(w: World, desired: Deployments.Deployment, why: Purpose): seq<Call> {
    var (w1, live) := Get(w, Target(why));
    [Look] + (
    if live == Err(NotFound) then CreateDeploymentLog(w1, desired, why)
    else if live.Ok? && DeploymentDiffers(live.value, desired, why.spec) then
      FixDeploymentLog(w1, live.value, desired, SelectorsDiffer(live.value, desired, why.spec), why)
    else [])
  }

  lemma DriveCalls(c: Config, w: World, desired: Deployments.Deployment, why: Purpose)
    requires desired.meta == DefaultMeta(why.spec) && why.stage.DeploymentStage?
    ensures DriveDeployment(w, why.r, why.spec, desired).0 == Play(w, DriveLog(w, desired, why))
    ensures Orderly(c, w, why.r, why.spec, DriveLog(w, desired, why), {Target(why)}, {Target(why)})
  {
    var (w1, live) := Get(w, Target(why));
    var rest: seq<Call> := [];
    if live == Err(NotFound) {
      CreateDeploymentCalls(c, w1, desired, why);
      rest := CreateDeploymentLog(w1, desired, why);
    } else if live.Ok? && DeploymentDiffers(live.value, desired, why.spec) {
      FixDeploymentCalls(c, w1, live.value, desired, NormalOrEmpty(AsDeployment(live.value), why.spec),
                         NormalOrEmpty(desired, why.spec), SelectorsDiffer(live.value, desired, why.spec), why);
      rest := FixDeploymentLog(w1, live.value, desired, SelectorsDiffer(live.value, desired, why.spec), why);
    }
    LookThen(c, w, why.r, why.spec, rest, {Target(why)}, {Target(why)});
  }

  function DeploymentLog(c: Config, w: World, r: Request, spec: Spec): seq<Call> {
    match Deployments.Desired(c, spec)
    case Err(_) => []
    case Ok(desired) => DriveLog(w, desired, Purpose(r, spec, DeploymentStage))
  }

  lemma DeploymentCalls(c: Config, w: World, r: Request, spec: Spec)
    ensures RunDeployment(c, w, r, spec).0 == Play(w, DeploymentLog(c, w, r, spec))
    ensures Orderly(c, w, r, spec, DeploymentLog(c, w, r, spec), {KeyOf(r, DeploymentStage)},
                    {KeyOf(r, DeploymentStage)})
  {
    if Deployments.Desired(c, spec).Ok? {
      DriveCalls(c, w, Deployments.Desired(c, spec).value, Purpose(r, spec, DeploymentStage));
    }
  }

  /** The calls a stage makes. */
  function StageLog(c: Config, w: World, r: Request, spec: Spec, s: Stage): seq<Call> {
    match s
    case SecretStage => SecretLog(c, w, r, spec)
    case ConfigMapStage => ConfigMapLog(c, w, r, spec)
    case DeploymentStage => DeploymentLog(c, w, r, spec)
    case NetworkPolicyStage => PolicyLog(c, w, r, spec)
    case _ => ObjectLog(c, w, Purpose(r, spec, s))
  }

  /** They put the stage's own object, by merging into a live one, and delete no more than its
      opposite or own one. */
  lemma StageCalls(c: Config, w: World, r: Request, spec: Spec, s: Stage)
    ensures RunStage(c, w, r, spec, s).0 == Play(w, StageLog(c, w, r, spec, s))
    ensures Orderly(c, w, r, spec, StageLog(c, w, r, spec, s), {KeyOf(r, s)}, Drops(r, s))
  {
    match s
    case SecretStage => SecretCalls(c, w, r, spec);
    case ConfigMapStage => ConfigMapCalls(c, w, r, spec);
    case DeploymentStage => DeploymentCalls(c, w, r, spec);
    case NetworkPolicyStage => PolicyCalls(c, w, r, spec);
    case _ => ObjectCalls(c, w, Purpose(r, spec, s));
  }

  /** The objects of several stages. */
  function Targets(r: Request, stages: seq<Stage>): set<Key> {
    set s | s in stages :: KeyOf(r, s)
  }

  function AllDrops(r: Request, stages: seq<Stage>): set<Key> {
    set s, k | s in stages && k in Drops(r, s) :: k
  }

  lemma Widen(c: Config, w: World, r: Request, spec: Spec, calls: seq<Call>,
              puts: set<Key>, drops: set<Key>, p: set<Key>, d: set<Key>)
    requires Orderly(c, w, r, spec, calls, puts, drops) && puts <= p && drops <= d
    ensures Orderly(c, w, r, spec, calls, p, d)
  {
    forall call | call in calls ensures StageCall(call, p, d) {
      assert StageCall(call, puts, drops);
    }
  }

  function StagesLog(c: Config, w: World, r: Request, spec: Spec, stages: seq<Stage>): seq<Call>
    decreases |stages|
  {
    if stages == [] then []
    else
      var (w1, o) := RunStage(c, w, r, spec, stages[0]);
      StageLog(c, w, r, spec, stages[0]) + (if o == Done then StagesLog(c, w1, r, spec, stages[1..]) else [])
  }

  lemma {:induction false} StagesCalls(c: Config, w: World, r: Request, spec: Spec, stages: seq<Stage>)
    ensures RunStages(c, w, r, spec, stages).0 == Play(w, StagesLog(c, w, r, spec, stages))
    ensures Orderly(c, w, r, spec, StagesLog(c, w, r, spec, stages), Targets(r, stages), AllDrops(r, stages))
    decreases |stages|
  {
    if stages != [] {
      var s, rest, puts, drops := stages[0], stages[1..], Targets(r, stages), AllDrops(r, stages);
      StageCalls(c, w, r, spec, s);
      Widen(c, w, r, spec, StageLog(c, w, r, spec, s), {KeyOf(r, s)}, Drops(r, s), puts, drops);
      var (w1, o) := RunStage(c, w, r, spec, s);
      StagesCalls(c, w1, r, spec, rest);
      Widen(c, w1, r, spec, StagesLog(c, w1, r, spec, rest), Targets(r, rest), AllDrops(r, rest), puts, drops);
      OrderlyThen(c, w, r, spec, StageLog(c, w, r, spec, s),
                  if o == Done then StagesLog(c, w1, r, spec, rest) else [], puts, drops);
    }
  }

  // ----- Removals -----

  function RemoveLog(w: World, k: Key): seq<Call> {
    LookAndDeleteLog(w, k, Get(w, k).1.Ok?)
  }

  function RemoveAllLog(w: World, keys: seq<Key>): seq<Call>
    decreases |keys|
  {
    if keys == [] then []
    else
      var (w1, o) := Remove(w, keys[0]);
      RemoveLog(w, keys[0]) + (if o == Done then RemoveAllLog(w1, keys[1..]) else [])
  }

  lemma RemoveCalls(c: Config, w: World, reading: Option<(Request, Spec)>, k: Key)
    requires IsDeletedKind(k.kind)
    ensures Remove(w, k).0 == Play(w, RemoveLog(w, k)) && Fair(c, w, reading, RemoveLog(w, k))
    ensures StageOnly(RemoveLog(w, k), {}, {k})
  {
    var call := if Deletes(Begin(w), k) then Drop(k) else Look;
    assert [call][1..] == [] && ([Look] + [call])[1..] == [call] && ([Look] + [])[1..] == [];
    if Get(w, k).1.Ok? {
      assert RemoveLog(w, k) == [Look] + [call];
      assert Play(w, RemoveLog(w, k)) == Play(Begin(w), [call]) == Made(Begin(w), call);
    }
  }

  /** The removals of a cleanup. */
  lemma {:induction false} RemoveAllCalls(c: Config, w: World, reading: Option<(Request, Spec)>, keys: seq<Key>)
    requires forall k | k in keys :: IsDeletedKind(k.kind)
    ensures RemoveAll(w, keys).0 == Play(w, RemoveAllLog(w, keys)) && Fair(c, w, reading, RemoveAllLog(w, keys))
    ensures StageOnly(RemoveAllLog(w, keys), {}, set k | k in keys)
    decreases |keys|
  {
    if keys != [] {
      RemoveCalls(c, w, reading, keys[0]);
      ReadingStays(reading, RemoveLog(w, keys[0]), {}, {keys[0]});
      var (w1, o) := Remove(w, keys[0]);
      var rest := if o == Done then RemoveAllLog(w1, keys[1..]) else [];
      if o == Done {
        RemoveAllCalls(c, w1, reading, keys[1..]);
      }
      PlayThen(c, w, reading, RemoveLog(w, keys[0]), rest);
      forall call | call in RemoveAllLog(w, keys) ensures StageCall(call, {}, set k | k in keys) {
        assert call in RemoveLog(w, keys[0]) ==> StageCall(call, {}, {keys[0]});
        assert call in rest ==> StageCall(call, {}, set k | k in keys[1..]);
      }
    }
  }

  // ----- No outsiders, but calls may fail -----

  ghost predicate Calm(w: World) {
    forall t | t in w.schedule :: t.outside == []
  }

  /** Nothing but these objects, pods and the queue is changed. */
  ghost predicate Keeps(w: World, v: World, keys: set<Key>) {
    Calm(v) && v.rms == w.rms && v.namespaces == w.namespaces && forall k | k !in keys :: v.Lookup(k) == w.Lookup(k)
  }

  lemma CalmBegin(w: World)
    requires Calm(w)
    ensures Calm(Begin(w)) && Begin(w).objs == w.objs && Begin(w).rms == w.rms && Begin(w).namespaces == w.namespaces
    ensures Begin(w).pods == w.pods && Begin(w).queue == w.queue
  {
    if !w.Quiet() {
      assert w.schedule[0].outside == [];
    }
  }

  lemma {:induction false} PlayKeeps(w: World, calls: seq<Call>, keys: set<Key>)
    requires Calm(w) && StageOnly(calls, keys, keys)
    ensures Keeps(w, Play(w, calls), keys)
    decreases |calls|
  {
    if calls != [] {
      assert StageCall(calls[0], keys, keys);
      CalmBegin(w);
      var w1 := Made(w, calls[0]);
      PlayKeeps(w1, calls[1..], keys);
      forall k | k !in keys ensures w1.Lookup(k) == w.Lookup(k) {
      }
    }
  }

  lemma StageKeeps(c: Config, w: World, r: Request, spec: Spec, s: Stage)
    requires Calm(w)
    ensures Keeps(w, RunStage(c, w, r, spec, s).0, Footprint(r, s))
  {
    var calls := StageLog(c, w, r, spec, s);
    StageCalls(c, w, r, spec, s);
    Widen(c, w, r, spec, calls, {KeyOf(r, s)}, Drops(r, s), Footprint(r, s), Footprint(r, s));
    PlayKeeps(w, calls, Footprint(r, s));
  }
}
