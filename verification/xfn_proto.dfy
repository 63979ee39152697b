/** The protocol messages the xfn-oci commands read: the Composition Function
    request and the RunFunctionRequestConfig decoded from its input. Only the
    fields the core consults are modelled; the getters are nil-safe, as the
    generated protobuf getters are (a nil message reads as its zero value). */
module XfnProto {
  import opened Base

  /** The request's `input`, a structpb.Struct, kept opaque. */
  datatype Input = Input(content: Bytes)

  /** RunFunctionRequest: its optional input, and the rest of the message
      (observed and desired state), which the core only transports. */
  datatype Request = Request(input: Option<Input>, payload: Bytes)

  /** ImagePullPolicy, a proto3 enum: a decoded message may carry a number
      the generated code has no name for. */
  datatype ImagePullPolicy =
    | PullPolicyUnspecified
    | PullPolicyIfNotPresent
    | PullPolicyAlways
    | PullPolicyNever
    | PullPolicyUnrecognized(number: int)

  datatype ImagePullAuth = ImagePullAuth(
    username: string,
    password: string,
    auth: string,
    identityToken: string,
    registryToken: string)

  datatype ImagePullConfig = ImagePullConfig(pullPolicy: ImagePullPolicy, auth: Option<ImagePullAuth>)

  datatype NetworkPolicy =
    | NetworkPolicyUnspecified
    | NetworkPolicyIsolated
    | NetworkPolicyRunner
    | NetworkPolicyUnrecognized(number: int)

  datatype ResourceLimits = ResourceLimits(cpu: string, memory: string)
  datatype ResourceConfig = ResourceConfig(limits: Option<ResourceLimits>)
  datatype NetworkConfig = NetworkConfig(policy: NetworkPolicy)

  /** RunFunctionConfig. `timeout` holds the value `AsDuration()` gives for the
      message's Duration, in nanoseconds. */
  datatype RunFunctionConfig = RunFunctionConfig(
    timeout: Option<Int64>,
    resources: Option<ResourceConfig>,
    network: Option<NetworkConfig>)

  datatype ConfigSpec = ConfigSpec(
    image: string,
    imagePullConfig: Option<ImagePullConfig>,
    runFunctionConfig: Option<RunFunctionConfig>)

  /** RunFunctionRequestConfig (its TypeMeta is not modelled). */
  datatype RequestConfig = RequestConfig(spec: ConfigSpec)

  /** The zero RunFunctionRequestConfig. */
  const EmptyConfig := RequestConfig(ConfigSpec("", None, None))

  /** cfg.GetTimeout().AsDuration(): 0 for a nil config or timeout. */
  function TimeoutOf(cfg: Option<RunFunctionConfig>): Int64 {
    match cfg
    case None => 0
    case Some(c) => c.timeout.GetOr(0)
  }

  /** cfg.GetResources().GetLimits(), as a pair of nil-safe strings. */
  function LimitsOf(cfg: Option<RunFunctionConfig>): ResourceLimits {
    match cfg
    case None => ResourceLimits("", "")
    case Some(c) =>
      match c.resources
      case None => ResourceLimits("", "")
      case Some(rc) => rc.limits.GetOr(ResourceLimits("", ""))
  }

  /** cfg.GetNetwork().GetPolicy(). */
  function NetworkPolicyOf(cfg: Option<RunFunctionConfig>): NetworkPolicy {
    match cfg
    case None => NetworkPolicyUnspecified
    case Some(c) =>
      match c.network
      case None => NetworkPolicyUnspecified
      case Some(n) => n.policy
  }

  /** cfg.GetPullPolicy(). */
  function PullPolicyOf(cfg: Option<ImagePullConfig>): ImagePullPolicy {
    match cfg
    case None => PullPolicyUnspecified
    case Some(c) => c.pullPolicy
  }

  /** cfg.GetAuth(). */
  function AuthOf(cfg: Option<ImagePullConfig>): Option<ImagePullAuth> {
    match cfg
    case None => None
    case Some(c) => c.auth
  }
}
