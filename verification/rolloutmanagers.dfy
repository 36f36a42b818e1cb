/** The RolloutManager resource, and the operator's own configuration. */
module RolloutManagers {
  import opened GoTypes
  import opened NamedLists

  /** Content the operator copies or compares as a whole, never looking inside. */
  type Opaque = int

  /** A field the API server may complete or rewrite: in its stored form already, or as it was
      sent together with the form in which the server will store it. */
  datatype Filled = AsStored(value: Opaque) | AsSent(value: Opaque, stored: Opaque)

  function InStore(f: Filled): Filled {
    if f.AsSent? then AsStored(f.stored) else f
  }

  datatype EnvSource = EnvSource(value: string, valueFrom: Filled)
  type EnvVar = Named<EnvSource>

  datatype PluginBody = PluginBody(location: string, sha256: string)
  type Plugin = Named<PluginBody>

  datatype ResourceMetadata = ResourceMetadata(labels: StringMap, annotations: StringMap)
  datatype NodePlacement = NodePlacement(nodeSelector: StringMap, tolerations: GoSlice<Opaque>)

  datatype Spec = Spec(
    namespaceScoped: bool,
    additionalMetadata: Option<ResourceMetadata>,
    env: seq<EnvVar>,
    extraCommandArgs: seq<string>,
    image: string,
    version: string,
    imagePullPolicy: string,
    nodePlacement: Option<NodePlacement>,
    controllerResources: Option<Filled>,
    skipNotificationSecret: bool,
    trafficPlugins: seq<Plugin>,
    metricPlugins: seq<Plugin>,
    ha: Option<bool>,
    networkPolicy: Option<Option<bool>>)
  {
    predicate HighlyAvailable() {
      ha == Some(true)
    }

    predicate NetworkPolicyEnabled() {
      networkPolicy != Some(Some(false))
    }

    /** The extra labels and annotations, empty when none are asked for. */
    function ExtraLabels(): map<string, string> {
      if additionalMetadata.None? then map[] else additionalMetadata.value.labels.Content()
    }

    function ExtraAnnotations(): map<string, string> {
      if additionalMetadata.None? then map[] else additionalMetadata.value.annotations.Content()
    }
  }

  datatype Phase = Unset | Available | Pending | Unknown | Failure

  datatype ApiError = NotFound | AlreadyExists | Conflict | Invalid | Unavailable

  /** Why a reconcile did not succeed; stands for the text of the error. */
  datatype Cause =
    | ApiCause(e: ApiError)
    | DuplicateArgument | ImageUnparsable | PullPolicyInvalid
    | LocationMissing | PluginReserved | DataUnparsable(text: string)
    | NotClusterScoped | NotNamespaceScoped | NamespaceNotListed | NotAlone
    | Internal

  datatype Message = NoMessage | Message(cause: Cause)

  datatype Reason =
    | Success | ErrorOccurred | InvalidScope | InvalidNamespace | MultipleClusterScoped | OtherReason(text: string)

  datatype Truth = True | False

  datatype Condition = Condition(kind: string, reason: Reason, message: Message, status: Truth, lastTransition: nat)

  datatype Status = Status(rolloutController: Phase, phase: Phase, conditions: seq<Condition>)

  datatype RolloutManager = RolloutManager(spec: Spec, status: Status)

  /** The fields of the reconciler and the environment variables it reads. */
  datatype Config = Config(
    pluginLocation: string,
    resourceLabels: StringMap,
    namespaceScoped: bool,
    clusterScopedNamespaces: string,
    imageEnv: string,
    imageEnvBase: Option<string>,
    pullPolicyEnv: string,
    proxyEnv: seq<EnvVar>)
}
