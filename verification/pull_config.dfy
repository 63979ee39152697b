/** FromImagePullConfig of the xfn-oci spark command: the image-client option
    derived from a request's ImagePullConfig. */
module PullConfig {
  import opened Base
  import opened XfnProto

  /** The image puller's pull policy. */
  datatype PullPolicy = PullAlways | PullNever | PullIfNotPresent

  /** The image puller's registry credentials. */
  datatype PullAuth = PullAuth(
    username: string,
    password: string,
    auth: string,
    identityToken: string,
    registryToken: string)

  /** The image client options an option function updates: the pull policy,
      the credentials, and (standing for everything else) a custom CA. */
  datatype ClientOptions = ClientOptions(
    pullPolicy: Option<PullPolicy>,
    auth: Option<PullAuth>,
    customCA: Option<string>)

  /** The credential copy: all five fields, unchanged. */
  function ToPullAuth(a: ImagePullAuth): PullAuth {
    PullAuth(a.username, a.password, a.auth, a.identityToken, a.registryToken)
  }

  /** The inverse copy, from the puller's credentials to the message. */
  function ToImagePullAuth(a: PullAuth): ImagePullAuth {
    ImagePullAuth(a.username, a.password, a.auth, a.identityToken, a.registryToken)
  }


  /** FromImagePullConfig(cfg) applied to options `o`. A nil config reads as
      an unspecified policy and no credentials. ALWAYS and NEVER map to their
      namesakes, IF_NOT_PRESENT and UNSPECIFIED both to IfNotPresent; a number
      the enum has no name for matches no case and leaves the policy as it
      was. Credentials are set only when the config carries them, copied
      field for field; nothing else is touched. */
  function FromImagePullConfig(cfg: Option<ImagePullConfig>, o: ClientOptions): (r: ClientOptions)
    ensures PullPolicyOf(cfg) == PullPolicyAlways ==> r.pullPolicy == Some(PullAlways)
    ensures PullPolicyOf(cfg) == PullPolicyNever ==> r.pullPolicy == Some(PullNever)
    ensures PullPolicyOf(cfg) in {PullPolicyIfNotPresent, PullPolicyUnspecified} ==>
      r.pullPolicy == Some(PullIfNotPresent)
    ensures PullPolicyOf(cfg).PullPolicyUnrecognized? ==> r.pullPolicy == o.pullPolicy
    ensures AuthOf(cfg).Some? ==> r.auth.Some? && ToImagePullAuth(r.auth.value) == AuthOf(cfg).value
    ensures AuthOf(cfg).None? ==> r.auth == o.auth
    ensures r.customCA == o.customCA
  {
    var policy :=
      match PullPolicyOf(cfg)
      case PullPolicyAlways => Some(PullAlways)
      case PullPolicyNever => Some(PullNever)
      case PullPolicyIfNotPresent => Some(PullIfNotPresent)
      case PullPolicyUnspecified => Some(PullIfNotPresent)
      case PullPolicyUnrecognized(_) => o.pullPolicy;
    var auth :=
      match AuthOf(cfg)
      case Some(a) => Some(ToPullAuth(a))
      case None => o.auth;
    o.(pullPolicy := policy, auth := auth)
  }

  /** Applying the option a second time changes nothing. */
  lemma {:induction false} FromImagePullConfigIdempotent(cfg: Option<ImagePullConfig>, o: ClientOptions)
    ensures FromImagePullConfig(cfg, FromImagePullConfig(cfg, o)) == FromImagePullConfig(cfg, o)
  {
  }

  /** What the option does depends on the config alone, except for an
      unrecognized policy or absent credentials, which defer to the options
      it is applied to. */
  lemma {:induction false} RecognizedPolicyOverridesEverything(cfg: Option<ImagePullConfig>, o1: ClientOptions, o2: ClientOptions)
    requires !PullPolicyOf(cfg).PullPolicyUnrecognized?
    ensures FromImagePullConfig(cfg, o1).pullPolicy == FromImagePullConfig(cfg, o2).pullPolicy
    ensures FromImagePullConfig(cfg, o1).pullPolicy.Some?
  {
  }
}
