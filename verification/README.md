# The Argo Rollouts operator: its reconcile loop as a verified model

The operator watches RolloutManager resources and drives about a dozen Kubernetes objects for
each towards a desired form. This project models one reconcile, the work queue and the watches
that fill it, and proves what the loop is for: nothing is lost, work ends, a second reconcile
changes nothing, reconciles in different namespaces do not disturb each other, and what users
added to the objects survives.

## How the model is built

* `gotypes`, `gostrings`, `namedlists`: Go values as the operator uses them. Nil and empty maps
  and slices are different values. Ranging over a map visits keys in an arbitrary order, so every
  result that should be deterministic is proved equal to one function.
* `rolloutmanagers`, `metadata`, `environment`, `deployments`, `statuses`: the resource and the
  algorithms on labels, environment variables, the Deployment and the status. Code that edits a
  live object in place is a class (`LiveMeta` over `GoMap`, maps that can be shared) or a method
  with loops, proved against a function.
* `cluster`: the world. It holds objects, RolloutManagers, namespaces, pods, the queue, the time
  and a schedule. The schedule says, for each coming API call, what outsiders do just before it,
  whether it is refused, whether it succeeds although its reply is lost, and whether the watch
  handler behind it can list. An exhausted schedule is a quiet world. Updates and status writes
  conflict when the object is not the one that was read, and a Deployment's selector is immutable.
  A write that changes nothing wakes nobody. Written objects come back with empty maps and slices
  omitted, unset fields defaulted, and resources and the sources of environment variables in the
  form in which the server stores them.
* `operator`: the step functions, one per reconciler, and their ordered composition.
* `reconciler`, `handlers`: the operator's code, statement by statement, on a client whose state
  is the world; every method is proved to do exactly what its step function says.
* `contents`, `workloads`, `restarts`, `reports`, `cleanups`, `watches`: what comes of it, in terms of
  the stored objects, the pods, the status and the queue, spelled out by name and content.
* `wakeups`, `settling`, `convergence`, `fixpoint`, `progress`, `repeats`, `draining`, `patches`,
  `commutation`, `traces`, `useredits`, `scopes`, `secrets`, `statusruns`, `plugins`, `upgrade`:
  the results.

Three strengths of environment occur. Results about runs (`Wakeups`, `StatusRuns`, `UserEdits`,
`Secrets.RunKeepsOurs`) hold for every schedule, up to the outside changes they name. Results about scope, rejection and single
reconciles of the Secret hold for `Calm` worlds: calls may fail in any way, but no outsider acts.
The same goes for what a finished stage or reconcile delivers and reports. Results about fixpoints,
draining and commutation, and that nobody unsettled is forgotten, are about `Quiet` worlds: where a Get
may fail, a reconcile can succeed and leave its RolloutManager unsettled (`Scopes.ExcludesExactly`).

## Where the code and what is said of it differ

* The next reconcile after a Deployment was written does write again in three cases: when the stored
  object has no annotation at all (the desired annotations are an empty map, the stored ones nil),
  when the CR's node placement gives an empty, non-nil toleration list, and when the CR gives
  resources or the source of an environment variable in a form that the server completes or rewrites
  (a `fieldRef` without `apiVersion`, say). The content it writes is what is already there.
  `Convergence.DeploymentConverges` states exactly when.
* A live Deployment whose selector has the desired labels and also expressions cannot be overwritten:
  the normal form leaves expressions out, so the Deployment is not recreated, and the server refuses
  the changed selector. If anything else differs the stage fails every time and the queue never
  drains. `Convergence.RefusedExactly` and `Convergence.DeploymentConverges` state exactly when,
  `Convergence.ExpressionsBlock` gives the input.
* A reconcile is not a fixpoint when it panics on a Deployment without a selector while restarting
  pods: the ConfigMap is written by then, so the next reconcile gets further. The Deployment API
  does not store a Deployment without a selector, so this can only arise where that validation was
  bypassed (`Repeats.PanicsOnceNeedsNoSelector`, `Repeats.PanicsOnceHappens`).
  `Repeats.FixpointExactly` states exactly when. A ConfigMap without data is another panic; it
  recurs, and the queue never drains (`Draining.StuckNeverDrains`).
* As far as the live objects and the CR decide it, draining ends exactly when the admitted
  RolloutManager can be carried out: its Deployment can be generated and not be refused, its plugins
  are allowed, its live ConfigMap has data that parses (`Draining.Drain`,
  `Draining.DrainsOnlyIfWorkable`). Other refusals by the server (a ConfigMap marked immutable, contents
  it finds invalid in a generated object) also keep the queue from draining; they are outside the model.
* A failed Get counts as absence when the opposite-scope object is to be deleted, so a reconcile
  can succeed and leave it. `Scopes.ScopeIsExclusive` states for each object exactly when,
  `Scopes.ExcludesExactly` when both are gone.
* The operator watches ConfigMaps on behalf of their owner, but the ConfigMap it creates has none, so
  its removal wakes nobody; nor does that of a ServiceAccount or an aggregate role, which are not
  watched. `Watches.UnheardRemoval` and `Contents.ConfigMapOriginates` state this,
  `Watches.NobodyIsForgotten` that of all other changes nothing is missed.
* A watch handler whose List call fails drops wake-ups, and nobody is woken when an aggregate role
  is deleted from outside. `Wakeups.HarmfulExactly` states which outside changes can lose a wake-up,
  `Wakeups.UnheardRemovalLosesWakeup` which of the operator's own.
* The upgraded file ends with one more empty line than before (`Upgrade.OtherLinesAreKept`).

## Model

| member | source | states |
|---|---|---|
| `Wakeups.NoRunLosesWakeup` | controllers/argorollouts_controller.go:168-287 | In every state of every run without a harmful outside change (outsiders acting between any two API calls, any call failing or losing its reply, any other List failing, panics retried), an admitted RolloutManager in a live namespace is queued or has its five cluster-scoped objects, provided no cleanup deletes the ClusterRole unheard while somebody admitted is not queued |
| `Wakeups.NothingIsLostFromStart` | controllers/argorollouts_controller.go:106-165 | The same for every such run from the initial listing, when every RolloutManager is queued |
| `Wakeups.WorkKeeps` | controllers/argorollouts_controller.go:106-165 | One turn of the worker keeps the property, whichever request it takes and however the reconcile ends, unless a cleanup deletes the ClusterRole while its handler cannot list and somebody admitted is not queued |
| `Wakeups.HarmfulExactly` | controllers/argorollouts_controller.go:168-287 | An outside change keeps the property from every world if and only if it is not harmful: harmful are deleting an aggregate role and, when the handler cannot list, deleting the ClusterRole, its binding or a RolloutManager, or making one namespace-scoped |
| `Wakeups.HarmfulLosesWakeup` | controllers/argorollouts_controller.go:241-287 | For every configuration and every harmful change there is a world in which it loses a wake-up |
| `Wakeups.UnheardRemovalLosesWakeup` | controllers/resources.go:353-366 | The condition on cleanups is needed: a deletion of the ClusterRole that nobody hears while somebody admitted is not queued loses a wake-up |
| `Wakeups.RemovalKeepsExactly` | controllers/resources.go:353-366 | The removal of the ClusterRole keeps the property if and only if it is not such a deletion |
| `Wakeups.AggregateDeletionLosesWakeup` | controllers/argorollouts_controller.go:194-202 | The assumption on aggregate roles is needed: from any state, deleting one from outside leaves the unqueued admitted RolloutManager without it |
| `Wakeups.CleanupKeeps` | controllers/resources.go:350-425 | Cleanup by name keeps the property because the ClusterRole goes first and its watch wakes everybody |
| `Wakeups.RemoveClusterRoleWakes` | controllers/resources.go:353-366 | After a finished removal of the ClusterRole every admitted RolloutManager is queued, whatever failed or interfered, unless the deletion was unheard while one of them was not queued |
| `Wakeups.ReconcileManagerEvolves` | controllers/reconcile.go:24-151 | A finished reconcile leaves its RolloutManager safe, and no reconcile makes anybody else unsafe |
| `Wakeups.StageEvolves` | controllers/reconcile.go:54-140 | Every cluster-mode stage only ever adds wake-ups, keeps cluster-scoped objects or wakes everybody, and leaves its own cluster-scoped object in place when it finishes |
| `Watches.OwnerIsWoken` | controllers/argorollouts_controller.go:173-198 | For each of the seven watched kinds of object, by name: after an outsider puts or removes one, a RolloutManager is queued exactly if it was before or the object changed and has it, or had it, for its controller owner |
| `Watches.EverybodyIsWoken` | controllers/argorollouts_controller.go:200-208 | A change of the ClusterRole or ClusterRoleBinding wakes every RolloutManager, or nobody if the handler cannot list |
| `Watches.ManagersAreWoken` | controllers/argorollouts_controller.go:171-180 | A RolloutManager that appears, goes or changes its spec wakes itself, and all others if the handler can list |
| `Watches.StatusWriteWakes` | controllers/argorollouts_controller.go:171-180 | A status that is written wakes its own RolloutManager only, one that is as it was nobody |
| `Watches.ChangeKeepsQueued` | controllers/argorollouts_controller.go:168-218 | If everybody who is not settled is queued, so it is after every outside change that is heard of: of an owned object of an admitted RolloutManager, of a shared object or of a RolloutManager while the handler can list, or of anything that no admitted one drives |
| `Watches.WorkForgetsNobody` | controllers/argorollouts_controller.go:106-165 | One turn of the worker keeps that too, whether it cleans up, rejects, succeeds, fails or panics |
| `Watches.NobodyIsForgotten` | controllers/argorollouts_controller.go:106-218 | So in every state of every such run, whatever is settled or can be carried out at all, everybody who is not settled is queued |
| `Watches.EmptyQueueMeansSettled` | controllers/argorollouts_controller.go:106-218 | Whenever such a run empties the queue, every reconcile would change nothing and succeed |
| `Watches.UnheardRemoval` | controllers/argorollouts_controller.go:182-208 | What is needed for that: removing a ServiceAccount, an aggregate role, or a ConfigMap without an owner, as the operator creates it, unsettles the RolloutManager and wakes it not |
| `Cleanups.CleanupRemoves` | controllers/resources.go:350-425 | A finished cleanup, whichever calls failed before, leaves none of the five cluster-scoped objects, spelled out, and every other object, pod, RolloutManager and namespace as it was |
| `Cleanups.MissingManagerIsCleanedUp` | controllers/argorollouts_controller.go:110-139 | So does every finished reconcile for a RolloutManager that is missing or whose namespace is |
| `Cleanups.CleanupSucceeds` | controllers/resources.go:350-425 | No outsider can make a cleanup fail: an object that somebody else removes between Get and Delete is as good as removed |
| `Cleanups.TerminatingNamespaceIsLeftAlone` | controllers/argorollouts_controller.go:124-127 | In a terminating namespace a reconcile does nothing |
| `Contents.StageDelivers` | controllers/resources.go:22-936 | Every finished stage leaves the contents spelled out for its object: the rules of each role, the subjects of each binding, the ports of the Service, the three parts of the NetworkPolicy or its absence, the plugin lists of the ConfigMap, the Deployment, and on each the labels and annotations in their order of priority |
| `Contents.ReconcileDelivers` | controllers/reconcile.go:24-151 | A finished reconcile of an admitted RolloutManager, whatever it found and whichever calls failed on the way, leaves all of them at once |
| `Contents.StagesStopInOrder` | controllers/reconcile.go:54-140 | However the stages end, they stopped at one of eleven in this order: what comes before is delivered and what comes after is untouched |
| `Contents.EnsureOriginates` | controllers/resources.go:67-347 | What a pass does not repair: owner, role reference and Service selector stay if the object was there, and are the stated ones if it was not |
| `Contents.ConfigMapOriginates` | controllers/configmap.go:38-52 | A ConfigMap that is created gets no owner |
| `Contents.DeploymentOriginates` | controllers/deployment.go:221-227 | A Deployment that is created gets the RolloutManager for its owner |
| `Contents.PluginsAreFound` | controllers/configmap.go:134-156 | Nothing is rewritten exactly if both lists are there, sorted with the stated winners, and the old key is not |
| `Workloads.DesiredRuns` | controllers/deployment.go:20-139 | The generated Deployment spelled out: scope and election flags then the extra arguments in order, the CR variables over the proxy ones, image and pull policy by priority, replicas, placement, spreading, probe, ports, confinement, volumes, labels |
| `Workloads.FlagsExactly` | controllers/deployment.go:719-738 | Without extra arguments the namespaced flag is there exactly for a namespace-scoped CR and the election flag exactly with high availability |
| `Workloads.GenerationFails` | controllers/deployment.go:303-325 | Nothing is generated exactly for a repeated flag, an image that cannot be parsed or an unknown pull policy, and the first of these is the reason |
| `Workloads.LeftAloneExactly` | controllers/deployment.go:403-614 | A live Deployment is left alone if and only if it has the contents spelled out, in the form in which they are sent, whatever else it holds |
| `Workloads.FinishedStageRuns` | controllers/deployment.go:142-227 | Whatever was there, whatever outsiders do meanwhile and whichever calls fail: when the stage finishes the stored Deployment has these contents |
| `Workloads.RecreatedExactly` | controllers/deployment.go:168-227 | A finished quiet run keeps the live Deployment, with its owner, readiness, foreign fields, labels and annotations, if and only if it can be compared and selects the operator pods; otherwise a new object replaces it |
| `Workloads.OverwrittenKeepsForeign` | controllers/deployment.go:193-215 | Overwriting leaves the owner, the readiness, every field the operator does not set and every label and annotation it does not ask for |
| `Restarts.RefusedExactly` | controllers/configmap.go:34-65 | The stage refuses a missing plugin location, then a CR plugin of the reserved name, before it makes any call |
| `Restarts.RewrittenExactly` | controllers/configmap.go:134-226 | A finished run on a live ConfigMap changes nothing at all if its lists are right; otherwise it rewrites it, and of the pods exactly those of the namespace that bear all selected labels and were not going away are gone |
| `Reports.AllowedExactly` | controllers/utils.go:293-311 | A namespace is allowed if and only if it stands between commas, or the ends of the text, with nothing but white space around it |
| `Reports.VerdictExactly` | controllers/utils.go:242-352 | Who is turned away and with which condition, by scope, namespace list and rivals |
| `Reports.SuccessIsReported` | controllers/status.go:12-47 | After every successful reconcile of an admitted RolloutManager, whichever calls failed on the way: both phases are Available, Pending, Unknown or Failure exactly as the stored Deployment has as many replicas ready as it asks for, another number, no count, or is missing; and the condition says Success |
| `Reports.RejectionIsReported` | controllers/utils.go:242-352 | A reconcile of one that is turned away succeeds only if both phases are Failure and the condition gives the reason |
| `Reports.FailureIsReported` | controllers/reconcile.go:54-140 | A failed reconcile leaves both phases and says what failed |
| `Repeats.FixpointExactly` | controllers/reconcile.go:24-151 | With no interference a second reconcile, at any later time, leaves objects, pods, statuses with their transition times and queue as they are and ends the same way, if and only if the first did not panic while restarting pods |
| `Repeats.StagedPanics` | controllers/configmap.go:141-175 | Which panic the stages end in is decided by the objects they start from: a ConfigMap without data, or a due rewrite with a Deployment that has no selector |
| `Repeats.AfterPanic` | controllers/argorollouts_controller.go:106-165 | After the first kind of panic the next reconcile panics again and changes nothing; after the second kind it does not panic |
| `Repeats.PanicsOnceNeedsNoSelector` | controllers/configmap.go:182-197 | The second kind needs a stored Deployment without a selector |
| `Repeats.PanicsOnceHappens` | controllers/configmap.go:182-197 | With one stored and a ConfigMap due for a rewrite, it arises for every admitted RolloutManager |
| `Fixpoint.ReconcileIsAFixpoint` | controllers/argorollouts_controller.go:106-165 | Reconciling twice equals reconciling once for every outcome but a panic, rejected, failed and clean-up reconciles included |
| `Fixpoint.StagesFixpoint` | controllers/reconcile.go:54-140 | The ordered stages, run again on what they left, change nothing and end the same way; after success every stage is settled |
| `Fixpoint.StageLands` | controllers/resources.go:22-936 | A quiet stage changes only its own keys, pods and queue; if it finishes it is settled; if it fails, on a refused selector change too, nothing changed and the cause can be told from the CR and its object |
| `Fixpoint.PipelineIsDisjoint` | controllers/reconcile.go:54-140 | No two stages of one reconcile share an object |
| `Draining.Drain` | controllers/argorollouts_controller.go:106-165 | The worker loop over the real reconcile ends for every order in which requests are taken, with an empty queue, and with everybody settled if everybody unsettled was queued; nobody comes or goes and no spec changes |
| `Draining.WorkDecreases` | controllers/argorollouts_controller.go:106-165 | Every turn, of a missing, settled, rejected, admitted or panicking RolloutManager, makes the lexicographic measure smaller and keeps every unsettled RolloutManager queued |
| `Draining.DrainsOnlyIfWorkable` | controllers/reconcile.go:113-125 | Conversely, if any order of turns empties the queue then the admitted CR can be generated, its Deployment is not one the server refuses to overwrite, its plugins are allowed and its live ConfigMap has parsable data |
| `Draining.StuckNeverDrains` | controllers/reconcile.go:113-125 | An admitted RolloutManager whose ConfigMap or Deployment stage cannot get past what it finds, a refused selector change included, is queued after any number of turns |
| `Draining.DrainedIsSettled` | controllers/reconcile.go:24-151 | Once drained, reconciling any RolloutManager is the identity and the admitted one has all its objects |
| `Draining.AdmittedTurn` | controllers/reconcile.go:54-140 | A successful turn of the admitted RolloutManager settles it; once its namespace is settled only existing RolloutManagers are woken |
| `Draining.CleanupTurn` | controllers/resources.go:350-425 | A request for a missing RolloutManager is used up by a cleanup that wakes existing RolloutManagers only |
| `Commutation.CommuteExactly` | controllers/reconcile.go:54-140 | In namespace-scoped mode reconciles in two namespaces lead to the same world in either order if and only if, when both are admitted, their expected aggregate-role metadata agrees on shared keys |
| `Commutation.ReconcilesCommute` | controllers/reconcile.go:24-151 | Under that agreement also the outcomes are the same, for rejected, failing and panicking reconciles too |
| `Commutation.ReconcileTouchesOwnKeys` | controllers/resources.go:22-936 | A reconcile changes only fixed keys of its own namespace and the five cluster-scoped ones |
| `Commutation.ReconcileImposes` | controllers/resources.go:428-583 | Every admitted reconcile, even one that fails later, leaves its expected labels and annotations on each aggregate role |
| `Commutation.PassesCommute` | controllers/resources.go:456-476 | Two metadata passes over one live object commute when what they expect agrees on shared keys |
| `Commutation.StagesPairwise` | controllers/reconcile.go:54-140 | Any two stages of different namespaces commute, shared deletions and shared aggregate roles included |
| `Patches.StageMoves` | controllers/resources.go:22-936 | What a quiet stage does depends only on its own keys, the pods of its namespace and which RolloutManagers exist |
| `Patches.DeletePodsKeeps` | controllers/configmap.go:200-214 | Deleting the listed pods removes exactly those not already terminating |
| `Convergence.DeploymentConverges` | controllers/deployment.go:142-219 | From any live Deployment or none, even one without a normal form: a quiet run fails without change if and only if the live one differs, is not recreated and has selector expressions; otherwise it succeeds and settles it; after a write the next run writes again if and only if the object has no annotation at all, the CR gives an empty, non-nil toleration list, or the server completes resources or environment sources of the CR |
| `Convergence.RefusedExactly` | controllers/deployment.go:183-215 | A live Deployment that is not recreated can be overwritten exactly when its selector has no expressions |
| `Convergence.ExpressionsBlock` | controllers/deployment.go:183-215 | The input on which every run fails: as desired, but for the strategy and selector expressions |
| `Convergence.WrittenSettles` | controllers/deployment.go:403-614 | What was just written, as it reads back completed by the server, is settled, and differs from the desired form exactly in those three cases |
| `Convergence.StoredIsNormal` | controllers/deployment.go:403-614 | The normal form of a written Deployment is the desired one as it reads back, whatever other metadata it carries |
| `Convergence.DeploymentIsIdle` | controllers/deployment.go:142-219 | On a settled Deployment the stage leaves the world as it is |
| `Deployments.NormalizeIdempotent` | controllers/deployment.go:403-614 | Normalising twice is normalising once, wherever it succeeds |
| `Deployments.DesiredIsNormal` | controllers/deployment.go:161-172 | Every successfully generated Deployment is its own normal form, for every CR and configuration |
| `Deployments.DifferenceIsComplete` | controllers/deployment.go:230-292 | On normal forms the field-by-field comparison reports no difference exactly when the Deployments are equal |
| `Metadata.MergeContent` | controllers/resources.go:47-56 | Whether or not a difference is detected, the outcome is the live content overridden by the expected content |
| `UserEdits.UserEditsSurvive` | controllers/argorollouts_controller.go:106-165 | Over every run in which no outsider touches an object, whatever else outsiders do and whichever calls fail: unless one of the calls this run makes deletes it, it is there at the end, its labels and annotations have every key they had, each key the operator merged has the value of the last merge naming it, every other key its value; so do owner, foreign ConfigMap entries and Secret content |
| `UserEdits.KeptKindsSurvive` | controllers/resources.go:22-64 | ServiceAccounts, ConfigMaps and Services are never deleted, so user edits on them survive every such run unconditionally |
| `UserEdits.RunCalls` | controllers/argorollouts_controller.go:106-165 | The calls of a run, a function of it, lead where the run leads; each fits: a write is for the RolloutManager and spec last read in its turn, and creates the expected object or merges into the live one; the outside changes among them are those of the run, in order |
| `UserEdits.StandsUnlessDropped` | controllers/resources.go:22-64 | Where no outsider touches an object, it is there before and after every call exactly if no call deletes it |
| `UserEdits.ReconcileCalls` | controllers/argorollouts_controller.go:106-165 | Every reconcile, under any interference, is its sequence of calls, none of them an outsider or another turn: each write is for the spec that was read and creates the expected object or merges into the live one, each deletion is of a kind that may be deleted |
| `UserEdits.EditsSurvive` | controllers/resources.go:47-61 | The same survival for any such sequence of calls |
| `Traces.RepairIsEdit` | controllers/resources.go:47-61 | A repair writes the live metadata overridden by the expected one and leaves a Secret its content |
| `Traces.OverwritingIsEdit` | controllers/deployment.go:193-215 | So does the overwriting of a live Deployment |
| `Traces.RewriteIsEdit` | controllers/configmap.go:149-170 | Rewriting plugin data keeps the metadata of the ConfigMap and every entry that is not the operator own |
| `Metadata.SecondPassMatches` | controllers/utils.go:480-525 | A second pass detects a difference exactly when an expected label is outside the compared ones or the live object has an unexpected aggregate label |
| `Metadata.LiveMeta.MergeExpected` | controllers/resources.go:47-56 | The pass over a live object: it gets the merged metadata, and the maps it had keep every entry |
| `Metadata.LiveMeta.Differs` | controllers/resources.go:47-51 | The comparison normalises a copy and changes nothing that existed before |
| `Metadata.LiveMeta.RemoveUserLabelsAndAnnotations` | controllers/utils.go:480-525 | The in-place deletion loops leave exactly the default and aggregate labels and the expected annotations, in any iteration order |
| `Metadata.LiveMeta.DeepCopy` | controllers/resources.go:47-48 | The copy that is normalised is a fresh object that shares no map with the original |
| `Metadata.LiveMeta.SetRolloutsLabelsAndAnnotations` | controllers/utils.go:61-67 | Fresh maps with the three standard labels |
| `Metadata.LiveMeta.SetAdditionalLabelsAndAnnotations` | controllers/utils.go:42-59 | The CR metadata overrides what is there; without any nothing is touched |
| `Metadata.LiveMeta.SetDefaults` | controllers/utils.go:35-40 | Standard labels overridden by the CR ones; annotations of the CR |
| `Metadata.LiveMeta.SetCustomLabels` | controllers/utils.go:69-78 | Custom labels override, on a nil map too |
| `Metadata.GoMap.KeepOnly` | controllers/utils.go:480-525 | Deleting from the map while ranging keeps exactly the wanted keys, in any order |
| `Metadata.GoMap.Assign` | controllers/utils.go:42-59 | Assigning from another map while ranging over it overrides, in any order |
| `GoTypes.AreStringMapsEqual` | controllers/utils.go:103-123 | The comparison is equality of content: nil and empty maps are equal |
| `GoTypes.CombineStringMaps` | controllers/utils.go:126-145 | Later maps win, in any iteration order; nil only without a list |
| `GoTypes.AppendStringMap` | controllers/utils.go:90-99 | Absent or empty sources are filled afresh, others extended |
| `GoTypes.CopyInto` | controllers/utils.go:126-145 | Ranging over a map and assigning overrides, in any order |
| `GoTypes.NormalizeMap` | controllers/deployment.go:617-622 | A non-nil map of the same content |
| `Environment.EnvMerge` | controllers/utils.go:150-177 | The map-and-sort implementation yields one list, independent of iteration order |
| `Environment.EnvMergeWinners` | controllers/utils.go:150-177 | Sorted by unique name; with override the last merge entry wins, otherwise the last existing one, then the first merge one |
| `Environment.EnvMergeIdempotent` | controllers/utils.go:150-177 | Merging the same variables again changes nothing |
| `NamedLists.CanonicalIsCanonical` | controllers/configmap.go:56-113 | The canonical list is sorted, has unique names and keeps first occurrences |
| `NamedLists.CanonicalIsUnique` | controllers/configmap.go:56-113 | It is the only such list |
| `NamedLists.PermutationInvariant` | controllers/configmap.go:56-113 | Reordering distinct names does not change it |
| `NamedLists.SortedLookups` | controllers/configmap.go:77-88 | Collecting keys in any order, sorting and looking up yields the canonical list |
| `NamedLists.SortedValues` | controllers/utils.go:168-176 | Collecting values in any order and sorting yields the canonical list |
| `NamedLists.SortBy` | controllers/configmap.go:82 | A permutation in ascending order of the key |
| `NamedLists.LessIsTotal` | controllers/configmap.go:82 | The string order is total and irreflexive |
| `NamedLists.LessIsTransitive` | controllers/configmap.go:82 | The string order is transitive |
| `Plugins.TrafficPluginWinners` | controllers/configmap.go:56-88 | Sorted, duplicate-free, the OpenShift entry always there, for other names the first occurrence wins |
| `Plugins.MetricPluginWinners` | controllers/configmap.go:91-113 | Sorted, duplicate-free, the first occurrence wins |
| `Plugins.TrafficPluginsAreUnique` | controllers/configmap.go:56-88 | Only one list is sorted, duplicate-free and has these winners |
| `Plugins.ReorderingIsInvisible` | controllers/configmap.go:141-178 | Reordering a CR with distinct plugin names changes neither what the stage writes nor which pods it restarts nor its outcome, from any world, failing calls included |
| `Scopes.ScopeIsExclusive` | controllers/resources.go:67-347 | After a successful admitted reconcile with failing calls but no outsider: own role and binding exist, the binding names the namespace ServiceAccount, and each opposite object is gone if and only if it was absent or the Get of it in this very reconcile did not fail |
| `Scopes.ExcludesExactly` | controllers/resources.go:67-347 | Such a reconcile, in either mode and whatever other calls fail, leaves roles and bindings of one scope only if and only if neither Get of an opposite object that was there failed |
| `Scopes.QuietScopeIsExclusive` | controllers/reconcile.go:64-110 | With no failing call the two scopes exclude each other after every successful admitted reconcile |
| `Scopes.DropDone` | controllers/resources.go:69-76 | A finished opposite-scope removal leaves the object exactly when it was there and its Get failed |
| `Scopes.ScopedStageDone` | controllers/resources.go:185-347 | A finished role or binding stage leaves its object with the repaired subjects |
| `Scopes.AdmittedShareScope` | controllers/utils.go:242-352 | All admitted RolloutManagers have the operator scope; of cluster-scoped ones at most one is admitted, in a listed namespace |
| `Scopes.SomebodyAdmitted` | controllers/utils.go:242-352 | In cluster mode somebody is admitted exactly when the only cluster-scoped RolloutManager is in a listed namespace |
| `Scopes.RejectedChangesStatusOnly` | controllers/reconcile.go:27-52 | Turned away, with failing calls or not: only its own status may change and only it may be woken |
| `Secrets.SecretFollowsFlag` | controllers/resources.go:863-936 | After any run, with turns of any RolloutManager, a successful admitted reconcile without outsiders leaves the Secret there exactly when the flag is off or the Secret was foreign before; exactly when it is off, if it started absent or its own and neither outsiders touched it nor another RolloutManager of the namespace had a turn |
| `Secrets.RunKeepsOurs` | controllers/resources.go:863-936 | Over every run in which no outsider touches the Secret and no other RolloutManager of the namespace has a turn, whatever CRs change and whichever calls fail, the Secret stays absent or its own |
| `Secrets.CreationIsForeignToOthers` | controllers/resources.go:863-899 | The condition on turns is needed: a RolloutManager of another name that creates the Secret makes it foreign |
| `Secrets.SkipSparesForeign` | controllers/resources.go:900-911 | While skipping, the Secret changes only by deletion of one whose controller owner has the CR name; a foreign one stays |
| `Secrets.ReconcileSparesForeign` | controllers/resources.go:863-936 | While the CR skips the Secret a whole reconcile does not touch one with another controller or none, whichever calls fail |
| `Secrets.ReconcileFollowsFlag` | controllers/resources.go:863-936 | After one successful admitted reconcile, whichever calls failed, the Secret is there if and only if the flag is off or the Secret was foreign before |
| `StatusRuns.StatusesStaySound` | controllers/argorollouts_controller.go:151-164 | In every state of every run, in either scope, Phase equals RolloutController and condition types are unique, from such statuses |
| `StatusRuns.ManagerIsBalanced` | controllers/status.go:12-47 | Every result a reconcile can have leads from equal phases to equal phases |
| `Statuses.InsertOrUpdateConditions` | controllers/utils.go:394-427 | The loop inserts, refreshes or leaves the first entry of the type, and reports whether it changed anything |
| `Statuses.InsertionKeepsOthers` | controllers/utils.go:394-427 | Types stay unique, other entries and their order stay, a transition time moves only when message, reason or status does |
| `Statuses.InsertedHolds` | controllers/utils.go:394-427 | The condition holds afterwards; if it held before nothing changes |
| `Statuses.SettledStatusStays` | controllers/utils.go:368-391 | A status that has what the result wants is left as it is, and what is written always has it |
| `Fixpoint.WriteResultLands` | controllers/utils.go:368-391 | A quiet status write touches one status only and reports the outcome of the reconcile |
| `Settling.MergeSettles` | controllers/resources.go:47-61 | After one stored pass a second pass stores the same metadata |
| `Settling.RepairSettles` | controllers/resources.go:67-268 | A repaired object is settled |
| `Settling.ConfigMapLands` | controllers/configmap.go:32-179 | A quiet run settles the ConfigMap, or fails without changing it, or panics |
| `Settling.PluginDataSettles` | controllers/configmap.go:149-170 | Rewritten plugin data is what the next run looks for, the old metric key gone |
| `Progress.StageAdvances` | controllers/configmap.go:182-217 | A stage of a CR that can be carried out, on live objects that do not stand in its way, never fails, and panics only on a Deployment without a selector during a restart |
| `Progress.AdmissionSettles` | controllers/reconcile.go:24-151 | A reconcile whose stages finish settles its RolloutManager |
| `Progress.RejectionSettles` | controllers/reconcile.go:27-52 | A rejected reconcile settles its RolloutManager and changes only status and queue |
| `Traces.StageCalls` | controllers/resources.go:22-936 | Every stage, under any interference, is a sequence of calls that puts only its own object, created as expected or merged into the live one, and deletes at most its own or its opposite |
| `Traces.PlayKeeps` | controllers/resources.go:22-936 | Without outsiders such calls leave every other object, every RolloutManager and every namespace as it was |
| `GoStrings.SplitExactly` | controllers/utils.go:305-311 | The pieces are exactly the stretches without separators between separators or the ends |
| `GoStrings.TrimExactly` | controllers/utils.go:305-311 | Trimming takes away the white space around the text and nothing else |
| `GoStrings.JoinSplit` | controllers/utils.go:305-311 | Splitting loses nothing |
| `GoStrings.SplitJoin` | controllers/utils.go:305-311 | Joining pieces without the separator and splitting gives them back |
| `Upgrade.RoundTrip` | hack/upgrade-rollouts-script/main.go:365-423 | The tag is read back from the regenerated file if and only if the file had a marker line and the tag has no slash, newline or surrounding blanks |
| `Upgrade.OtherLinesAreKept` | hack/upgrade-rollouts-script/main.go:391-423 | Line by line: marker lines become the assignment with the tag twice, all others are kept, one more empty line at the end |
| `Upgrade.FirstLineDecides` | hack/upgrade-rollouts-script/main.go:365-389 | A version is read if and only if it stands, without the white space around it, after the last slash of the first line that has the marker and a slash |
| `Upgrade.VersionIsClean` | hack/upgrade-rollouts-script/main.go:377-386 | Whatever is extracted has no slash, no newline and no surrounding blanks |
| `Upgrade.ExtractCurrentTargetVersion` | hack/upgrade-rollouts-script/main.go:365-389 | The loop returns the trimmed text after the last slash of the first marker line that has one |
| `Upgrade.RegenerateControllersDefaultGo` | hack/upgrade-rollouts-script/main.go:391-423 | The loop writes every line, marker lines replaced, each ended by a newline |
| `Handlers.EnqueueOtherRolloutManagersExceptObj` | controllers/argorollouts_controller.go:241-266 | The requests are those of all other RolloutManagers, or none when the List fails |
| `Handlers.EnqueueAllRolloutManagers` | controllers/argorollouts_controller.go:269-287 | The requests are those of all RolloutManagers in listing order, or none when the List fails |
| `Reconcilers.RolloutManagerReconciler.ReconcileRequest` | controllers/argorollouts_controller.go:106-165 | The imperative reconcile does to the world exactly what the step function proved above does |
| `Reconcilers.RolloutManagerReconciler.ReconcileRolloutsManager` | controllers/reconcile.go:24-151 | Gates in order, then the stages, with the status result of every exit |
| `Reconcilers.RolloutManagerReconciler.RunPipeline` | controllers/reconcile.go:54-140 | The stages in order up to the first that does not finish |
| `Reconcilers.RolloutManagerReconciler.ReconcileServiceAccount` | controllers/resources.go:22-64 | Create or repair the ServiceAccount |
| `Reconcilers.RolloutManagerReconciler.ReconcileRole` | controllers/resources.go:67-129 | Delete the ClusterRole, then create or repair the Role |
| `Reconcilers.RolloutManagerReconciler.ReconcileClusterRole` | controllers/resources.go:132-182 | Delete the Role, then create or repair the ClusterRole |
| `Reconcilers.RolloutManagerReconciler.ReconcileRoleBinding` | controllers/resources.go:185-268 | Delete the ClusterRoleBinding, then create or repair the RoleBinding |
| `Reconcilers.RolloutManagerReconciler.ReconcileClusterRoleBinding` | controllers/resources.go:271-347 | Delete the RoleBinding, then create or repair the ClusterRoleBinding |
| `Reconcilers.RolloutManagerReconciler.ReconcileAggregate` | controllers/resources.go:428-583 | Create or repair an aggregate role |
| `Reconcilers.RolloutManagerReconciler.ReconcileSecret` | controllers/resources.go:863-936 | Create, repair, delete or spare the Secret |
| `Reconcilers.RolloutManagerReconciler.ReconcileConfigMap` | controllers/configmap.go:32-179 | Create, leave or rewrite the plugin data, then restart pods |
| `Reconcilers.RolloutManagerReconciler.CollectTrafficPlugins` | controllers/configmap.go:56-88 | Deduplicate and sort, or refuse the reserved name; equal to the canonical list |
| `Reconcilers.RolloutManagerReconciler.CollectMetricPlugins` | controllers/configmap.go:91-113 | Deduplicate and sort; equal to the canonical list |
| `Reconcilers.RolloutManagerReconciler.RestartRolloutsPod` | controllers/configmap.go:182-217 | Delete the pods the live Deployment selects |
| `Reconcilers.RolloutManagerReconciler.RemovePods` | controllers/configmap.go:200-214 | Delete pods one by one, tolerating those already gone |
| `Reconcilers.RolloutManagerReconciler.ReconcileDeployment` | controllers/deployment.go:142-219 | Generate, compare normal forms, create, overwrite or recreate |
| `Reconcilers.RolloutManagerReconciler.Overwrite` | controllers/deployment.go:193-215 | The field assignments amount to one overwritten Deployment |
| `Reconcilers.RolloutManagerReconciler.ReconcileMetricsService` | controllers/resources.go:786-860 | Create or repair the metrics Service |
| `Reconcilers.RolloutManagerReconciler.ReconcileNetworkPolicy` | controllers/resources.go:684-783 | Create, repair or delete the NetworkPolicy |
| `Reconcilers.RolloutManagerReconciler.DetermineStatusPhase` | controllers/status.go:12-47 | The phase of the live Deployment |
| `Reconcilers.RolloutManagerReconciler.FindOtherClusterScoped` | controllers/utils.go:328-349 | The loop finds another cluster-scoped RolloutManager exactly when there is one |
| `Reconcilers.RolloutManagerReconciler.UpdateStatusOf` | controllers/utils.go:368-391 | Writes the status exactly when something in it changes |
| `Reconcilers.RolloutManagerReconciler.RemoveClusterScopedResources` | controllers/resources.go:350-425 | The removals in order, up to the first that fails |
| `Deployments.GenerateDesiredRolloutsDeployment` | controllers/deployment.go:20-139 | The stepwise construction yields the desired Deployment or the first error |
| `Deployments.GenerateRolloutsContainer` | controllers/deployment.go:303-389 | The container, or the first error of arguments, image and pull policy |
| `Deployments.GetRolloutsCommandArgs` | controllers/deployment.go:719-738 | Own arguments and extra ones, or an error exactly when a long extra flag repeats an own one |
| `Deployments.NormalizeDeployment` | controllers/deployment.go:403-614 | The deletion loops and field copies yield the normal form, or the first reason why there is none |

## Left out

- Error texts are abstract causes; logging, metrics, leader election, caches and the client library are not modelled. The library's assumed contributions are: one worker, a failed or panicking reconcile is retried, and a queue without duplicates (so back-off and ordering are not modelled).
- Reconcilers.RolloutManagerReconciler.ApplyExpected: stands for the create-or-repair part that the source repeats for each kind of object, one shared method instead of copies that differ in field names only.
- Reconcilers.RolloutManagerReconciler.ReconcileMetricsService: does not model the ServiceMonitor that follows it or the detection of its CRD, which only adds a further object that is created once.
- Reconcilers.RolloutManagerReconciler.ReconcileConfigMap: the YAML text is modelled as the list it stands for, assuming that unmarshalling inverts marshalling; foreign text carries what it parses to.
- Deployments.GenerateRolloutsContainer: the image reference parser is a library; the base name of the image in the environment variable, or the failure to parse it, is part of the configuration. Resource quantities and proxy variables are given likewise.
- Deployments.NormalizeDeployment: fields the normal form discards are one opaque rest per structure, so nothing is said about them one by one.
- Of the API server's own validation only the immutable selector of a Deployment is modelled; CR contents that the server refuses in a generated object (an invalid label value, say) and ConfigMaps or Secrets marked immutable are not.
- Policy rule tables, Service ports and selectors and NetworkPolicy contents are opaque constants: they are compared and copied as a whole.
- Deletes take effect at once; garbage collection of owned objects, the Deployment controller and pod readiness are moves an outsider can make.
- The API server is assumed to keep a namespace for as long as it holds RolloutManagers, and not to notify about writes that change nothing.
- Draining.Drain: covers cluster-scoped mode, in which RolloutManagers contend for shared objects; in namespace-scoped mode cleanups for missing RolloutManagers delete objects that nobody is woken to restore.
- Watches.NobodyIsForgotten: covers cluster-scoped mode for the same reason, and calls that do not fail, since a failed Get can let a reconcile succeed that did not settle.
- Reports.FailureIsReported: without failing calls; where the status write itself fails nothing can be told.
- Restarts.RewrittenExactly: without failing calls or outsiders, who could start pods between the listing and the deletions.
- Commutation.CommuteExactly: speaks of RolloutManagers that exist in live namespaces; a clean-up for a missing one deletes the shared roles and does not commute with a reconcile that creates them.
- Secrets.SecretFollowsFlag: the last reconcile is without outsiders, who could put a Secret back after the operator has deleted it.
- Secrets.SkipSparesForeign: without outsiders only; one who replaces the Secret between the operator's Get and its Delete can have the replacement deleted, since the delete is by name.
- Scopes.RejectedChangesStatusOnly: without outsiders, whose changes could not be told from the operator's.
- The Service selector, a binding's role reference and a live ConfigMap's labels are never repaired by the source, and labels that a CR no longer asks for are never removed; the model does the same.
- Generated deep copies, CRD manifests, tests, shell scripts, and the git and GitHub calls of the upgrade script are not part of this model.
