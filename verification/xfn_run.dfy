/** The `run` command of xfn-oci: a convenience CLI that parses a
    RunFunctionRequest, resolves registry credentials from the caller's
    environment, and hands the request to a container runner.

    Two defects of the command as written are modelled next to a corrected
    version (`Variant`):
    - a request without input leaves the config nil and the command
      dereferences it, which panics;
    - the credentials resolved from the keychain are stored in a local copy
      of the config that is never sent, so they never reach the runner. */
module XfnRun {
  import opened Base
  import opened Errors
  import opened XfnProto
  import opened Container
  import opened Launcher
  import Pipeline

  const errWriteFIO := "cannot write YAML to stdout"
  const errRunFunction := "cannot run function"
  const errParseImage := "cannot parse image reference"
  const errResolveKeychain := "cannot resolve default registry authentication keychain"
  const errAuthCfg := "cannot get default registry authentication credentials"
  const errParseInput := "cannot parse input"

  /** The command's flags. Timeout, ImagePullPolicy and NetworkPolicy are
      declared but Run never reads them. */
  datatype Command = Command(
    cacheDir: string,
    timeout: Int64,
    imagePullPolicy: string,
    networkPolicy: string,
    mapRootUID: int,
    mapRootGID: int,
    input: Bytes)

  /** authn.AuthConfig, the keychain's credentials. */
  datatype AuthConfig = AuthConfig(
    username: string,
    password: string,
    auth: string,
    identityToken: string,
    registryToken: string)

  /** An authn.Authenticator: what its Authorization() returns. */
  datatype Authenticator = Authenticator(authorization: Result<AuthConfig>)

  /** The process and its collaborators: the process's IDs and capabilities,
      name.ParseReference (image, default registry), json.Unmarshal of the
      request, the two conversions ConfigFromRequest uses,
      authn.DefaultKeychain.Resolve, filepath.Clean, the runner's
      RunFunction (its response rendered as text), and the stdout write.
      `encodeInput` turns a config back into a request input; only the
      corrected command uses it. */
  datatype Env = Env(
    uid: int,
    gid: int,
    capSetUID: bool,
    capSetGID: bool,
    parseReference: (string, string) -> Result<Pipeline.Reference>,
    unmarshalRequest: Bytes -> Result<Request>,
    marshalInput: Input -> Result<Bytes>,
    unmarshalConfig: Bytes -> Result<RequestConfig>,
    resolveKeychain: Pipeline.Reference -> Result<Authenticator>,
    clean: string -> string,
    runFunction: (Runner, Request) -> Result<Bytes>,
    writeStdout: Outcome,
    encodeInput: RequestConfig -> Input)

  /** The runner and the request it was asked to run. */
  datatype Invocation = Invocation(runner: Runner, req: Request)

  /** How Run ends: it returns an error (nil on success), having perhaps
      echoed the unparseable input, invoked the runner and written its
      response; or it panics on a nil pointer. */
  datatype Ending =
    | Returned(err: Outcome, echoed: Option<Bytes>, ran: Option<Invocation>, written: Option<Bytes>)
    | Panicked

  /** The command as written, or with both defects corrected. */
  datatype Variant = AsWritten | Fixed

  /** The keychain's credentials, copied field for field into the message. */
  function CopyAuth(a: AuthConfig): ImagePullAuth {
    ImagePullAuth(a.username, a.password, a.auth, a.identityToken, a.registryToken)
  }


  /** The empty ImagePullConfig a missing one is replaced by. */
  const EmptyPullConfig := ImagePullConfig(PullPolicyUnspecified, None)

  /** A missing ImagePullConfig becomes an empty one; a present one is kept,
      and nothing else in the config changes. */
  function WithPullConfig(cfg: RequestConfig): (r: RequestConfig)
    ensures r.spec.imagePullConfig.Some?
    ensures cfg.spec.imagePullConfig.Some? ==> r == cfg
    ensures cfg.spec.imagePullConfig.None? ==> r.spec.imagePullConfig == Some(EmptyPullConfig)
    ensures r.spec.image == cfg.spec.image && r.spec.runFunctionConfig == cfg.spec.runFunctionConfig
  {
    if cfg.spec.imagePullConfig.None? then cfg.(spec := cfg.spec.(imagePullConfig := Some(EmptyPullConfig)))
    else cfg
  }

  /** Keychain defaulting. Credentials the config already carries are left
      untouched and the keychain is not consulted. Otherwise the keychain is
      resolved for the image's registry and its credentials are stored in
      the config; a failure to resolve or to authorize is returned wrapped
      with its own message. */
  function ResolveAuth(cfg: RequestConfig, ref: Pipeline.Reference,
                       resolve: Pipeline.Reference -> Result<Authenticator>): (r: Result<RequestConfig>)
    requires cfg.spec.imagePullConfig.Some?
    ensures cfg.spec.imagePullConfig.value.auth.Some? ==> r == Success(cfg)
    ensures cfg.spec.imagePullConfig.value.auth.None? && resolve(ref).Failure? ==>
      r == Failure(Wrapped(errResolveKeychain, resolve(ref).error))
    ensures cfg.spec.imagePullConfig.value.auth.None? && resolve(ref).Success? &&
            resolve(ref).value.authorization.Failure? ==>
      r == Failure(Wrapped(errAuthCfg, resolve(ref).value.authorization.error))
    ensures cfg.spec.imagePullConfig.value.auth.None? && resolve(ref).Success? &&
            resolve(ref).value.authorization.Success? ==>
      && r.Success?
      && r.value.spec.imagePullConfig.Some?
      && r.value.spec.imagePullConfig.value.auth == Some(CopyAuth(resolve(ref).value.authorization.value))
      && r.value.spec.imagePullConfig.value.pullPolicy == cfg.spec.imagePullConfig.value.pullPolicy
      && r.value.spec.image == cfg.spec.image
      && r.value.spec.runFunctionConfig == cfg.spec.runFunctionConfig
  {
    var pull := cfg.spec.imagePullConfig.value;
    if pull.auth.Some? then Success(cfg)
    else
      var auth := resolve(ref);
      if auth.Failure? then Failure(Wrapped(errResolveKeychain, auth.error))
      else
        var a := auth.value.authorization;
        if a.Failure? then Failure(Wrapped(errAuthCfg, a.error))
        else Success(cfg.(spec := cfg.spec.(imagePullConfig := Some(pull.(auth := Some(CopyAuth(a.value)))))))
  }

  /** The pull-config steps of Run on a (non-nil) config: default a missing
      ImagePullConfig, then default missing credentials from the keychain.
      Whatever succeeds carries credentials. */
  function ResolvePullConfig(cfg: RequestConfig, ref: Pipeline.Reference,
                             resolve: Pipeline.Reference -> Result<Authenticator>): (r: Result<RequestConfig>)
    ensures r.Success? ==> r.value.spec.imagePullConfig.Some? && r.value.spec.imagePullConfig.value.auth.Some?
    ensures r.Success? ==> r.value.spec.image == cfg.spec.image && r.value.spec.runFunctionConfig == cfg.spec.runFunctionConfig
    ensures AuthOf(cfg.spec.imagePullConfig).Some? ==> r == Success(cfg)
    ensures r.Failure? ==> r.error.Wrapped? && (r.error.context == errResolveKeychain || r.error.context == errAuthCfg)
    ensures AuthOf(cfg.spec.imagePullConfig).None? ==>
      && (r.Success? <==> resolve(ref).Success? && resolve(ref).value.authorization.Success?)
      && (resolve(ref).Failure? ==> r == Failure(Wrapped(errResolveKeychain, resolve(ref).error)))
      && (resolve(ref).Success? && resolve(ref).value.authorization.Failure? ==>
            r == Failure(Wrapped(errAuthCfg, resolve(ref).value.authorization.error)))
      && (r.Success? ==>
            && AuthOf(r.value.spec.imagePullConfig) == Some(CopyAuth(resolve(ref).value.authorization.value))
            && PullPolicyOf(r.value.spec.imagePullConfig) == PullPolicyOf(cfg.spec.imagePullConfig))
  {
    ResolveAuth(WithPullConfig(cfg), ref, resolve)
  }

  /** The keychain is consulted only when the request carries no
      credentials: with credentials present, any two keychains give the
      same result. */
  lemma {:induction false} KeychainOnlyWithoutAuth(cfg: RequestConfig, ref: Pipeline.Reference,
                                                   k1: Pipeline.Reference -> Result<Authenticator>,
                                                   k2: Pipeline.Reference -> Result<Authenticator>)
    requires AuthOf(cfg.spec.imagePullConfig).Some?
    ensures ResolvePullConfig(cfg, ref, k1) == ResolvePullConfig(cfg, ref, k2)
  {
  }

  /** Defaulting the pull config twice is defaulting it once. */
  lemma {:induction false} ResolvePullConfigIdempotent(cfg: RequestConfig, ref: Pipeline.Reference,
                                                       resolve: Pipeline.Reference -> Result<Authenticator>)
    requires ResolvePullConfig(cfg, ref, resolve).Success?
    ensures ResolvePullConfig(ResolvePullConfig(cfg, ref, resolve).value, ref, resolve) == ResolvePullConfig(cfg, ref, resolve)
  {
  }

  /** The options the command builds its runner with, in order. */
  function RunnerOptions(c: Command, registry: string, env: Env): seq<RunnerOption> {
    var m := ChooseRootMapping(env.uid, env.gid, env.capSetUID, env.capSetGID, c.mapRootUID, c.mapRootGID);
    [SetUID(m.setuid), MapToRoot(m.rootUID, m.rootGID), WithCacheDir(env.clean(c.cacheDir)), WithRegistry(registry)]
  }

  /** The last contribution among four options, unrolled. */
  lemma {:induction false} LastOfFour<T>(opts: seq<RunnerOption>, pick: RunnerOption -> Option<T>)
    requires |opts| == 4
    ensures Last(opts, pick) ==
      if pick(opts[3]).Some? then pick(opts[3])
      else if pick(opts[2]).Some? then pick(opts[2])
      else if pick(opts[1]).Some? then pick(opts[1])
      else pick(opts[0])
  {
    assert opts[3..][1..] == [];
    assert Last(opts[3..], pick) == pick(opts[3]);
    assert opts[2..][1..] == opts[3..] && opts[2..][0] == opts[2];
    var l2 := Last(opts[2..], pick);
    assert l2 == if pick(opts[3]).Some? then pick(opts[3]) else pick(opts[2]);
    assert opts[1..][1..] == opts[2..] && opts[1..][0] == opts[1];
    var l1 := Last(opts[1..], pick);
    assert l1 == if l2.Some? then l2 else pick(opts[1]);
  }

  /** The runner: it setuids and maps the configured IDs to root exactly
      when both capabilities are held, and otherwise maps the process's own
      IDs; it caches in the cleaned cache directory, uses the given default
      registry, and has no default image of its own. */
  function RunnerFor(c: Command, registry: string, env: Env): (r: Runner)
    ensures r.setuid <==> env.capSetUID && env.capSetGID
    ensures r.setuid ==> r.rootUID == c.mapRootUID && r.rootGID == c.mapRootGID
    ensures !r.setuid ==> r.rootUID == env.uid && r.rootGID == env.gid
    ensures r.cache == env.clean(c.cacheDir)
    ensures r.registry == registry
    ensures r.defaultImage.None?
  {
    var opts := RunnerOptions(c, registry, env);
    LastOfFour(opts, RootOf);
    LastOfFour(opts, SetUIDOf);
    LastOfFour(opts, CacheDirOf);
    LastOfFour(opts, RegistryOf);
    LastOfFour(opts, DefaultImageOf);
    NewContainerRunner(opts)
  }

  /** The config the request's input decodes to. As written, a request
      without input yields no config at all (a nil pointer); corrected, it
      yields what ConfigFromRequest gives for it, the empty config. */
  function ConfigFor(req: Request, env: Env, v: Variant): (r: Result<Option<RequestConfig>>)
    ensures req.input.Some? ==> r == (var d := ConfigFromRequest(req, env.marshalInput, env.unmarshalConfig);
                                      if d.Success? then Success(Some(d.value)) else Failure(d.error))
    ensures req.input.None? ==> r == if v == AsWritten then Success(None) else Success(Some(EmptyConfig))
  {
    if req.input.None? && v == AsWritten then Success(None)
    else
      var d := ConfigFromRequest(req, env.marshalInput, env.unmarshalConfig);
      if d.Success? then Success(Some(d.value)) else Failure(d.error)
  }

  /** The request handed to the runner: as written, the parsed request
      itself; corrected, the parsed request with its input replaced by the
      resolved config when defaulting changed the decoded one, and the
      parsed request itself when it did not. */
  function Forwarded(req: Request, decoded: RequestConfig, pulled: RequestConfig, env: Env, v: Variant): (r: Request)
    ensures v == AsWritten || pulled == decoded ==> r == req
    ensures v == Fixed && pulled != decoded ==> r == Request(Some(env.encodeInput(pulled)), req.payload)
  {
    if v == AsWritten || pulled == decoded then req else req.(input := Some(env.encodeInput(pulled)))
  }

  /** Command.Run(registry, defaultImage). */
  function Execute(c: Command, registry: string, defaultImage: string, env: Env, v: Variant): (x: Ending)
    ensures env.parseReference(defaultImage, registry).Failure? ==>
      x == Returned(Some(Wrapped(errParseImage, env.parseReference(defaultImage, registry).error)), None, None, None)
    ensures env.parseReference(defaultImage, registry).Success? && env.unmarshalRequest(c.input).Failure? ==>
      x == Returned(Some(Wrapped(errParseInput, env.unmarshalRequest(c.input).error)), Some(c.input), None, None)
    ensures env.parseReference(defaultImage, registry).Success? && env.unmarshalRequest(c.input).Success? ==>
      var req := env.unmarshalRequest(c.input).value;
      var cfg := ConfigFor(req, env, v);
      && (cfg.Failure? ==> x == Returned(Some(cfg.error), None, None, None))
      && (cfg.Success? && cfg.value.None? ==> x.Panicked?)
      && (cfg.Success? && cfg.value.Some? ==>
            var pulled := ResolvePullConfig(cfg.value.value, env.parseReference(defaultImage, registry).value, env.resolveKeychain);
            && (pulled.Failure? ==> x == Returned(Some(pulled.error), None, None, None))
            && (pulled.Success? ==>
                  x.Returned? && x.ran == Some(Invocation(RunnerFor(c, registry, env), Forwarded(req, cfg.value.value, pulled.value, env, v)))))
    ensures x.Returned? && x.echoed.Some? ==>
      env.parseReference(defaultImage, registry).Success? && env.unmarshalRequest(c.input).Failure?
    ensures x.Returned? && x.ran.Some? ==>
      && env.parseReference(defaultImage, registry).Success?
      && env.unmarshalRequest(c.input).Success?
      && x.ran.value.runner == RunnerFor(c, registry, env)
    ensures x.Returned? && x.written.Some? ==>
      x.ran.Some? && env.runFunction(x.ran.value.runner, x.ran.value.req) == Success(x.written.value) &&
      x.err == Wrap(env.writeStdout, errWriteFIO)
    ensures x.Returned? && x.ran.Some? && x.written.None? ==>
      env.runFunction(x.ran.value.runner, x.ran.value.req).Failure? &&
      x.err == Some(Wrapped(errRunFunction, env.runFunction(x.ran.value.runner, x.ran.value.req).error))
  {
    var ref := env.parseReference(defaultImage, registry);
    if ref.Failure? then Returned(Some(Wrapped(errParseImage, ref.error)), None, None, None)
    else
      var req := env.unmarshalRequest(c.input);
      if req.Failure? then Returned(Some(Wrapped(errParseInput, req.error)), Some(c.input), None, None)
      else
        var cfg := ConfigFor(req.value, env, v);
        if cfg.Failure? then Returned(Some(cfg.error), None, None, None)
        else if cfg.value.None? then Panicked
        else
          var pulled := ResolvePullConfig(cfg.value.value, ref.value, env.resolveKeychain);
          if pulled.Failure? then Returned(Some(pulled.error), None, None, None)
          else
            var call := Invocation(RunnerFor(c, registry, env), Forwarded(req.value, cfg.value.value, pulled.value, env, v));
            var rsp := env.runFunction(call.runner, call.req);
            if rsp.Failure? then Returned(Some(Wrapped(errRunFunction, rsp.error)), None, Some(call), None)
            else Returned(Wrap(env.writeStdout, errWriteFIO), None, Some(call), Some(rsp.value))
  }

  function Run(c: Command, registry: string, defaultImage: string, env: Env): Ending {
    Execute(c, registry, defaultImage, env, AsWritten)
  }

  function RunFixed(c: Command, registry: string, defaultImage: string, env: Env): Ending {
    Execute(c, registry, defaultImage, env, Fixed)
  }

  /** As written, a well-formed request without input crashes the command:
      the nil config is dereferenced before anything is run. */
  lemma {:induction false} NilInputPanics(c: Command, registry: string, defaultImage: string, env: Env)
    requires env.parseReference(defaultImage, registry).Success?
    requires env.unmarshalRequest(c.input).Success? && env.unmarshalRequest(c.input).value.input.None?
    ensures Run(c, registry, defaultImage, env).Panicked?
  {
  }

  /** Corrected, the command never panics; a request without input runs
      with the empty config, defaulted like any other. */
  lemma {:induction false} FixedNeverPanics(c: Command, registry: string, defaultImage: string, env: Env)
    ensures RunFixed(c, registry, defaultImage, env).Returned?
  {
    var ref := env.parseReference(defaultImage, registry);
    var req := env.unmarshalRequest(c.input);
    if ref.Success? && req.Success? {
      var cfg := ConfigFor(req.value, env, Fixed);
      assert cfg.Success? ==> cfg.value.Some?;
    }
  }

  /** As written, the runner receives exactly the parsed request: whatever
      the keychain resolved is not part of it. */
  lemma {:induction false} CredentialsNotForwarded(c: Command, registry: string, defaultImage: string, env: Env)
    requires Run(c, registry, defaultImage, env).Returned? && Run(c, registry, defaultImage, env).ran.Some?
    ensures Run(c, registry, defaultImage, env).ran.value.req == env.unmarshalRequest(c.input).value
  {
  }

  /** The defect as an input: a request whose config names no credentials,
      run with a keychain that has some. The request the runner receives
      decodes to the same credential-less config. */
  lemma {:induction false} KeychainCredentialsLost(c: Command, registry: string, defaultImage: string, env: Env)
    requires env.parseReference(defaultImage, registry).Success?
    requires env.unmarshalRequest(c.input).Success?
    requires var req := env.unmarshalRequest(c.input).value;
      && req.input.Some?
      && ConfigFromRequest(req, env.marshalInput, env.unmarshalConfig).Success?
      && AuthOf(ConfigFromRequest(req, env.marshalInput, env.unmarshalConfig).value.spec.imagePullConfig).None?
    requires env.resolveKeychain(env.parseReference(defaultImage, registry).value).Success?
    requires env.resolveKeychain(env.parseReference(defaultImage, registry).value).value.authorization.Success?
    ensures var x := Run(c, registry, defaultImage, env);
      && x.Returned? && x.ran.Some?
      && var sent := ConfigFromRequest(x.ran.value.req, env.marshalInput, env.unmarshalConfig);
      && sent.Success? && AuthOf(sent.value.spec.imagePullConfig).None?
  {
  }

  /** Corrected, the runner receives the resolved config: when the
      conversions round-trip it, the request decodes to a config carrying
      the keychain's credentials, copied field for field, with the image
      and run configuration of the original. */
  lemma {:induction false} FixedForwardsCredentials(c: Command, registry: string, defaultImage: string, env: Env)
    requires env.parseReference(defaultImage, registry).Success?
    requires env.unmarshalRequest(c.input).Success?
    requires var req := env.unmarshalRequest(c.input).value;
      && ConfigFromRequest(req, env.marshalInput, env.unmarshalConfig).Success?
      && AuthOf(ConfigFromRequest(req, env.marshalInput, env.unmarshalConfig).value.spec.imagePullConfig).None?
    requires env.resolveKeychain(env.parseReference(defaultImage, registry).value).Success?
    requires env.resolveKeychain(env.parseReference(defaultImage, registry).value).value.authorization.Success?
    requires forall cfg: RequestConfig ::
      ConfigFromRequest(Request(Some(env.encodeInput(cfg)), env.unmarshalRequest(c.input).value.payload),
                        env.marshalInput, env.unmarshalConfig) == Success(cfg)
    ensures var x := RunFixed(c, registry, defaultImage, env);
      var a := env.resolveKeychain(env.parseReference(defaultImage, registry).value).value.authorization.value;
      var orig := ConfigFromRequest(env.unmarshalRequest(c.input).value, env.marshalInput, env.unmarshalConfig).value;
      && x.Returned? && x.ran.Some?
      && var sent := ConfigFromRequest(x.ran.value.req, env.marshalInput, env.unmarshalConfig);
      && sent.Success?
      && AuthOf(sent.value.spec.imagePullConfig) == Some(CopyAuth(a))
      && sent.value.spec.image == orig.spec.image
      && sent.value.spec.runFunctionConfig == orig.spec.runFunctionConfig
  {
    var ref := env.parseReference(defaultImage, registry).value;
    var req := env.unmarshalRequest(c.input).value;
    var orig := ConfigFromRequest(req, env.marshalInput, env.unmarshalConfig).value;
    assert ConfigFor(req, env, Fixed) == Success(Some(orig));
    var pulled := ResolvePullConfig(orig, ref, env.resolveKeychain);
    assert pulled.Success?;
    assert AuthOf(pulled.value.spec.imagePullConfig).Some?;
    var fwd := Forwarded(req, orig, pulled.value, env, Fixed);
    assert fwd == Request(Some(env.encodeInput(pulled.value)), req.payload);
  }

  /** The two versions agree whenever the request has input and already
      carries credentials: the corrections change nothing else. */
  lemma {:induction false} FixedAgreesWithCredentials(c: Command, registry: string, defaultImage: string, env: Env)
    requires env.unmarshalRequest(c.input).Success?
    requires var req := env.unmarshalRequest(c.input).value;
      && req.input.Some?
      && ConfigFromRequest(req, env.marshalInput, env.unmarshalConfig).Success?
      && AuthOf(ConfigFromRequest(req, env.marshalInput, env.unmarshalConfig).value.spec.imagePullConfig).Some?
    ensures Run(c, registry, defaultImage, env) == RunFixed(c, registry, defaultImage, env)
  {
  }
}
