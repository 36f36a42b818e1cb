/** The cluster as the operator meets it: stored objects, RolloutManagers, namespaces,
    pods, the watches that fill the work queue, and API calls between which outsiders act. */
module Cluster {
  import opened GoTypes
  import opened NamedLists
  import opened RolloutManagers
  import opened Metadata
  import opened Deployments

  datatype Request = Request(ns: string, name: string)

  datatype Kind = ServiceAccount | Role | ClusterRole | RoleBinding | ClusterRoleBinding
                | Secret | ConfigMap | DeploymentKind | Service | NetworkPolicy
  datatype Key = Key(kind: Kind, ns: string, name: string)

  datatype RuleSet = PolicyRules | AdminRules | EditRules | ViewRules | OtherRules(id: Opaque)
  datatype Subject = Subject(kind: string, name: string, ns: string)
  datatype RoleRef = RoleRef(kind: string, name: string)

  /** A ConfigMap value: a marshalled plugin list, or text from elsewhere with what it parses to. */
  datatype Text = Marshalled(items: seq<Plugin>) | Foreign(parsed: Result<GoSlice<Plugin>, string>)

  datatype ConfigData = NilData | Data(entries: map<string, Text>)

  datatype Body =
    | Bare
    | RulesBody(rules: RuleSet)
    | BindingBody(roleRef: RoleRef, subjects: seq<Subject>)
    | SecretBody(content: Opaque)
    | ConfigBody(data: ConfigData)
    | DeploymentBody(spec: DeploymentSpec, ready: int)
    | ServiceBody(ports: Opaque, selector: Opaque)
    | NetworkPolicyBody(podSelector: Opaque, policyTypes: Opaque, ingress: Opaque)

  datatype Obj = Obj(meta: Meta, body: Body)

  datatype Pod = Pod(ns: string, name: string, labels: map<string, string>, deleting: bool)

  // ----- The outside world -----

  datatype Change =
    | CreateManager(r: Request, spec: Spec)
    | DeleteManager(r: Request)
    | ChangeSpec(r: Request, spec: Spec)
    | PutObject(key: Key, obj: Obj)
    | RemoveObject(key: Key)
    | CreateNamespace(ns: string)
    | TerminateNamespace(ns: string)
    | RemoveNamespace(ns: string)
    | SetPods(pods: seq<Pod>)

  /** A change by an outsider; `notified` is false when the List call of the watch handler fails. */
  datatype Event = Event(change: Change, notified: bool)

  /** What becomes of one API call: refused, or done although no reply arrives. */
  datatype Fault = NoFault | Refused | ReplyLost

  /** What happens around one API call: outside changes just before it, and its own fate. */
  datatype Turn = Turn(outside: seq<Event>, fault: Fault, notified: bool, elapsed: nat)

  function LookIn(objs: map<Key, Obj>, k: Key): Option<Obj> {
    if k in objs then Some(objs[k]) else None
  }

  datatype World = World(
    objs: map<Key, Obj>,
    rms: map<Request, RolloutManager>,
    namespaces: map<string, bool>,
    pods: seq<Pod>,
    queue: set<Request>,
    now: nat,
    schedule: seq<Turn>)
  {
    /** From here on no outsider acts and no call fails. */
    predicate Quiet() {
      schedule == []
    }

    predicate NamespaceIsLive(ns: string) {
      ns in namespaces && !namespaces[ns]
    }

    function Lookup(k: Key): Option<Obj> {
      LookIn(objs, k)
    }
  }

  // ----- Watches -----

  /** Kinds whose events wake the RolloutManager that owns the object. */
  predicate IsOwnedKind(kind: Kind) {
    kind in {NetworkPolicy, ConfigMap, Secret, Service, DeploymentKind, Role, RoleBinding}
  }

  /** The objects whose events wake every RolloutManager. */
  predicate WakesEveryone(k: Key) {
    (k.kind == ClusterRole || k.kind == ClusterRoleBinding) && k.name == RESOURCE_NAME
  }

  function OwnerRequest(ns: string, obj: Option<Obj>): set<Request> {
    match obj
    case None => {}
    case Some(o) =>
      if o.meta.owner.Some? && o.meta.owner.value.isRolloutManager then {Request(ns, o.meta.owner.value.name)} else {}
  }

  /** Whom the watches wake when the object under `k` changes. */
  function Woken(managers: set<Request>, k: Key, before: Option<Obj>, after: Option<Obj>,
                 notified: bool): set<Request> {
    if before == after then {}
    else if IsOwnedKind(k.kind) then OwnerRequest(k.ns, before) + OwnerRequest(k.ns, after)
    else if WakesEveryone(k) && notified then managers
    else {}
  }

  function SetObject(w: World, k: Key, after: Option<Obj>, notified: bool): World {
    w.(objs := if after.None? then w.objs - {k} else w.objs[k := after.value],
       queue := w.queue + Woken(w.rms.Keys, k, w.Lookup(k), after, notified))
  }

  /** The other RolloutManagers, provided the handler can list them. */
  function Others(w: World, r: Request, notified: bool): set<Request> {
    if notified then w.rms.Keys - {r} else {}
  }

  const NEW_STATUS := Status(Unset, Unset, [])

  /** Changes the API server would refuse leave the world as it is. */
  function ApplyChange(w: World, c: Change, notified: bool): World {
    match c
    case CreateManager(r, spec) =>
      if r in w.rms || !w.NamespaceIsLive(r.ns) then w
      else w.(rms := w.rms[r := RolloutManager(spec, NEW_STATUS)], queue := w.queue + {r} + Others(w, r, notified))
    case DeleteManager(r) =>
      if r !in w.rms then w
      else w.(rms := w.rms - {r}, queue := w.queue + {r} + Others(w, r, notified))
    case ChangeSpec(r, spec) =>
      if r !in w.rms || w.rms[r].spec == spec then w
      else w.(rms := w.rms[r := w.rms[r].(spec := spec)], queue := w.queue + {r} + Others(w, r, notified))
    case PutObject(k, obj) => SetObject(w, k, Some(obj), notified)
    case RemoveObject(k) => SetObject(w, k, None, notified)
    case CreateNamespace(ns) =>
      if ns in w.namespaces then w else w.(namespaces := w.namespaces[ns := false])
    case TerminateNamespace(ns) =>
      if ns in w.namespaces then w.(namespaces := w.namespaces[ns := true]) else w
    case RemoveNamespace(ns) =>
      if exists r | r in w.rms :: r.ns == ns then w else w.(namespaces := w.namespaces - {ns})
    case SetPods(pods) => w.(pods := pods)
  }

  function ApplyAll(w: World, events: seq<Event>): World
    decreases |events|
  {
    if events == [] then w
    else ApplyAll(ApplyChange(w, events[0].change, events[0].notified), events[1..])
  }

  // ----- API calls -----

  /** The world as the next API call finds it. */
  function Begin(w: World): World {
    if w.Quiet() then w
    else ApplyAll(w.(schedule := w.schedule[1..], now := w.now + w.schedule[0].elapsed), w.schedule[0].outside)
  }

  function NextFault(w: World): Fault {
    if w.Quiet() then NoFault else w.schedule[0].fault
  }

  function NextNotified(w: World): bool {
    w.Quiet() || w.schedule[0].notified
  }

  function Reply(w: World): Option<ApiError> {
    if NextFault(w) == ReplyLost then Some(Unavailable) else None
  }

  function Get(w: World, k: Key): (World, Result<Obj, ApiError>) {
    var b := Begin(w);
    (b, if NextFault(w) != NoFault then Err(Unavailable) else if k in b.objs then Ok(b.objs[k]) else Err(NotFound))
  }

  function GetNamespace(w: World, ns: string): (World, Result<bool, ApiError>) {
    var b := Begin(w);
    (b, if NextFault(w) != NoFault then Err(Unavailable) else if ns in b.namespaces then Ok(b.namespaces[ns])
     else Err(NotFound))
  }

  function GetManager(w: World, r: Request): (World, Result<RolloutManager, ApiError>) {
    var b := Begin(w);
    (b, if NextFault(w) != NoFault then Err(Unavailable) else if r in b.rms then Ok(b.rms[r]) else Err(NotFound))
  }

  function ListManagers(w: World): (World, Result<map<Request, RolloutManager>, ApiError>) {
    var b := Begin(w);
    (b, if NextFault(w) != NoFault then Err(Unavailable) else Ok(b.rms))
  }

  predicate Selects(ns: string, selector: map<string, string>, pod: Pod) {
    pod.ns == ns && forall k | k in selector :: k in pod.labels && pod.labels[k] == selector[k]
  }

  function Selected(pods: seq<Pod>, ns: string, selector: map<string, string>): seq<Pod> {
    if pods == [] then []
    else if Selects(ns, selector, pods[0]) then [pods[0]] + Selected(pods[1..], ns, selector)
    else Selected(pods[1..], ns, selector)
  }

  function ListPods(w: World, ns: string, selector: map<string, string>): (World, Result<seq<Pod>, ApiError>) {
    var b := Begin(w);
    (b, if NextFault(w) != NoFault then Err(Unavailable) else Ok(Selected(b.pods, ns, selector)))
  }

  function StoredBody(b: Body): Body {
    match b
    case DeploymentBody(spec, ready) => DeploymentBody(StoredSpec(spec), ready)
    case ConfigBody(Data(entries)) => if entries == map[] then ConfigBody(NilData) else b
    case _ => b
  }

  /** How an object comes back once written. */
  function Stored(o: Obj): Obj {
    Obj(StoredMeta(o.meta), StoredBody(o.body))
  }

  function Create(w: World, k: Key, obj: Obj): (World, Option<ApiError>) {
    var b := Begin(w);
    if NextFault(w) == Refused then (b, Some(Unavailable))
    else if k in b.objs then (b, Some(AlreadyExists))
    else (SetObject(b, k, Some(Stored(obj)), NextNotified(w)), Reply(w))
  }

  function SelectorOf(o: Obj): Option<LabelSelector> {
    if o.body.DeploymentBody? then o.body.spec.selector else None
  }

  /** A Deployment's selector is immutable. */
  predicate ChangesSelector(k: Key, live: Obj, obj: Obj) {
    k.kind.DeploymentKind? && SelectorOf(Stored(live)) != SelectorOf(Stored(obj))
  }

  /** An update is refused when the object is not the one that was fetched, or when it would
      change an immutable field. */
  function Update(w: World, k: Key, fetched: Obj, obj: Obj): (World, Option<ApiError>) {
    var b := Begin(w);
    if NextFault(w) == Refused then (b, Some(Unavailable))
    else if k !in b.objs then (b, Some(NotFound))
    else if b.objs[k] != fetched then (b, Some(Conflict))
    else if ChangesSelector(k, fetched, obj) then (b, Some(Invalid))
    else (SetObject(b, k, Some(Stored(obj)), NextNotified(w)), Reply(w))
  }

  function Delete(w: World, k: Key): (World, Option<ApiError>) {
    var b := Begin(w);
    if NextFault(w) == Refused then (b, Some(Unavailable))
    else if k !in b.objs then (b, Some(NotFound))
    else (SetObject(b, k, None, NextNotified(w)), Reply(w))
  }

  function WithoutPod(pods: seq<Pod>, ns: string, name: string): seq<Pod> {
    if pods == [] then []
    else if pods[0].ns == ns && pods[0].name == name then WithoutPod(pods[1..], ns, name)
    else [pods[0]] + WithoutPod(pods[1..], ns, name)
  }

  predicate HasPod(pods: seq<Pod>, ns: string, name: string) {
    exists p | p in pods :: p.ns == ns && p.name == name
  }

  function DeletePod(w: World, ns: string, name: string): (World, Option<ApiError>) {
    var b := Begin(w);
    if NextFault(w) == Refused then (b, Some(Unavailable))
    else if !HasPod(b.pods, ns, name) then (b, Some(NotFound))
    else (b.(pods := WithoutPod(b.pods, ns, name)), Reply(w))
  }

  /** A status write: refused when the RolloutManager changed since it was read.  Its own
      watch wakes it; the others are not told, because its generation stays the same. */
  function UpdateStatus(w: World, r: Request, fetched: RolloutManager, status: Status): (World, Option<ApiError>) {
    var b := Begin(w);
    if NextFault(w) == Refused then (b, Some(Unavailable))
    else if r !in b.rms then (b, Some(NotFound))
    else if b.rms[r] != fetched then (b, Some(Conflict))
    else if b.rms[r].status == status then (b, Reply(w))
    else (b.(rms := b.rms[r := b.rms[r].(status := status)], queue := b.queue + {r}), Reply(w))
  }

  // ----- The client the operator calls -----

  class Client {
    var world: World

    constructor (w: World)
      ensures world == w
    {
      world := w;
    }

    method GetObject(k: Key) returns (r: Result<Obj, ApiError>)
      modifies this
      ensures (world, r) == Get(old(world), k)
    {
      var p := Get(world, k);
      world, r := p.0, p.1;
    }

    method ReadNamespace(ns: string) returns (r: Result<bool, ApiError>)
      modifies this
      ensures (world, r) == GetNamespace(old(world), ns)
    {
      var p := GetNamespace(world, ns);
      world, r := p.0, p.1;
    }

    method ReadManager(q: Request) returns (r: Result<RolloutManager, ApiError>)
      modifies this
      ensures (world, r) == GetManager(old(world), q)
    {
      var p := GetManager(world, q);
      world, r := p.0, p.1;
    }

    method ReadManagers() returns (r: Result<map<Request, RolloutManager>, ApiError>)
      modifies this
      ensures (world, r) == ListManagers(old(world))
    {
      var p := ListManagers(world);
      world, r := p.0, p.1;
    }

    method ReadPods(ns: string, selector: map<string, string>) returns (r: Result<seq<Pod>, ApiError>)
      modifies this
      ensures (world, r) == ListPods(old(world), ns, selector)
    {
      var p := ListPods(world, ns, selector);
      world, r := p.0, p.1;
    }

    method CreateObject(k: Key, obj: Obj) returns (e: Option<ApiError>)
      modifies this
      ensures (world, e) == Create(old(world), k, obj)
    {
      var p := Create(world, k, obj);
      world, e := p.0, p.1;
    }

    method UpdateObject(k: Key, fetched: Obj, obj: Obj) returns (e: Option<ApiError>)
      modifies this
      ensures (world, e) == Update(old(world), k, fetched, obj)
    {
      var p := Update(world, k, fetched, obj);
      world, e := p.0, p.1;
    }

    method DeleteObject(k: Key) returns (e: Option<ApiError>)
      modifies this
      ensures (world, e) == Delete(old(world), k)
    {
      var p := Delete(world, k);
      world, e := p.0, p.1;
    }

    method RemovePod(ns: string, name: string) returns (e: Option<ApiError>)
      modifies this
      ensures (world, e) == DeletePod(old(world), ns, name)
    {
      var p := DeletePod(world, ns, name);
      world, e := p.0, p.1;
    }

    method WriteStatus(q: Request, fetched: RolloutManager, status: Status) returns (e: Option<ApiError>)
      modifies this
      ensures (world, e) == UpdateStatus(old(world), q, fetched, status)
    {
      var p := UpdateStatus(world, q, fetched, status);
      world, e := p.0, p.1;
    }
  }
}
