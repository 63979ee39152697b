/** The xfn-oci spark command: run inside the user namespace, it reads a
    RunFunctionRequest from standard input, pulls the function's image,
    bundles it, runs the OCI runtime on the bundle and writes the runtime's
    standard output back. Once the bundle exists, every way out of the run
    cleans it up exactly once. */
module XfnSpark {
  import opened Base
  import opened Errors
  import opened Stdio
  import opened XfnProto
  import opened Pipeline
  import Container

  const errNoInput := "no input provided"
  const errMarshalInput := "failed to marshal input to JSON"
  /** The Wrapf format "failed to unmarshal input as config %s", up to its verb. */
  const errUnmarshalInputPrefix := "failed to unmarshal input as config "
  const errNewDigestStore := "cannot create OCI image digest store"
  const errParseRef := "cannot parse OCI image reference"
  const errParseCABundle := "Cannot parse CA bundle"
  const errPull := "cannot pull OCI image"
  const errMarshalRequest := "failed to marshal request to JSON"
  const errRuntime := "OCI runtime error"

  /** The time after which the OCI runtime is killed if the request names
      none: 25 seconds, in nanoseconds. */
  const DefaultTimeout: Int64 := 25 * 1_000_000_000

  /** The command's flags. */
  datatype Command = Command(cacheDir: string, runtime: string, maxStdioBytes: Int64, caBundlePath: string)

  /** The answers of everything outside the model: standard input, the
      protobuf and JSON conversions, the run ID, the bundler probe and
      constructors, the digest store, reference parsing, CA parsing, the
      image puller (given the reference, the request's pull config and
      whether a custom CA is used), the bundler (given its kind, the image,
      the run ID and the RunFunctionConfig its spec option derives from), and
      the host after bundling. */
  datatype Env = Env(
    stdin: Result<Bytes>,
    unmarshalRequest: Bytes -> Result<Request>,
    marshalInput: Input -> Result<Bytes>,
    unmarshalConfig: Bytes -> Result<RequestConfig>,
    runID: string,
    overlaySupported: bool,
    newCachingBundler: Outcome,
    newDigestStore: Outcome,
    parseReference: (string, string) -> Result<Reference>,
    parseCertificates: Outcome,
    pull: (Reference, Option<ImagePullConfig>, bool) -> Result<Image>,
    bundle: (BundlerKind, Image, string, Option<RunFunctionConfig>) -> Result<Bundle>,
    marshalRequest: Request -> Result<Bytes>,
    host: Host)

  /** The run's deadline: the request's timeout, or DefaultTimeout when that
      is zero (or absent), so a run always has a deadline. */
  function Timeout(cfg: Option<RunFunctionConfig>): (t: Int64)
    ensures t != 0
    ensures TimeoutOf(cfg) != 0 ==> t == TimeoutOf(cfg)
    ensures TimeoutOf(cfg) == 0 ==> t == DefaultTimeout
  {
    var t := TimeoutOf(cfg);
    if t == 0 then DefaultTimeout else t
  }

  /** The image to run: the request's, or the command's default image when
      the request names none. */
  function ImageFor(image: string, defaultImage: string): (img: string)
    ensures image != "" ==> img == image
    ensures image == "" ==> img == defaultImage
  {
    if image == "" then defaultImage else image
  }

  /** The request read from standard input has a message but no input. */
  predicate NoInput(env: Env) {
    env.stdin.Success? && env.unmarshalRequest(env.stdin.value).Success? &&
    env.unmarshalRequest(env.stdin.value).value.input.None?
  }

  /** The steps that read and decode a request, in order. */
  const DecodeActions: seq<Action> := [ReadRequest, UnmarshalRequest, MarshalInput, UnmarshalConfig]

  datatype Decoded = Decoded(req: Request, conf: RequestConfig, timeout: Int64)

  /** Reads and decodes the request, then its input as a config. A request
      without input stops the run after the two reads with "no input
      provided". When it continues, the config is what ConfigFromRequest
      would decode from the same request. */
  function Decode(env: Env): (p: Phase<Decoded>)
    ensures Follows(p.trace, DecodeActions, p.Continue?)
    ensures NoInput(env) <==> p.Stop? && p.err == Plain(errNoInput)
    ensures NoInput(env) ==> p.trace == [Did(ReadRequest, true), Did(UnmarshalRequest, true)]
    ensures env.stdin.Failure? ==> p.Stop? && p.err == Wrapped(errReadRequest, env.stdin.error)
    ensures env.stdin.Success? && env.unmarshalRequest(env.stdin.value).Failure? ==>
      p.Stop? && p.err == Wrapped(errUnmarshalRequest, env.unmarshalRequest(env.stdin.value).error)
    ensures env.stdin.Success? && env.unmarshalRequest(env.stdin.value).Success? &&
            env.unmarshalRequest(env.stdin.value).value.input.Some? ==>
      ConfigErrorsWrapped(env, env.unmarshalRequest(env.stdin.value).value, p)
    ensures p.Continue? ==>
      && p.value.req.input.Some?
      && Container.ConfigFromRequest(p.value.req, env.marshalInput, env.unmarshalConfig) == Success(p.value.conf)
      && p.value.timeout == Timeout(p.value.conf.spec.runFunctionConfig)
  {
    if env.stdin.Failure? then Stop([Did(ReadRequest, false)], Wrapped(errReadRequest, env.stdin.error))
    else
      var req := env.unmarshalRequest(env.stdin.value);
      if req.Failure? then
        Stop([Did(ReadRequest, true), Did(UnmarshalRequest, false)], Wrapped(errUnmarshalRequest, req.error))
      else if req.value.input.None? then
        Stop([Did(ReadRequest, true), Did(UnmarshalRequest, true)], Plain(errNoInput))
      else
        var t := [Did(ReadRequest, true), Did(UnmarshalRequest, true)];
        match DecodeConfig(env, req.value)
        case Continue(u, d) => Continue(t + u, d)
        case Stop(u, err) => Stop(t + u, err)
  }

  /** How decoding the input as a config fails: a marshalling failure is
      wrapped as "failed to marshal input to JSON", an unmarshalling failure
      with a message that quotes the JSON it could not read. */
  predicate ConfigErrorsWrapped(env: Env, req: Request, p: Phase<Decoded>)
    requires req.input.Some?
  {
    var json := env.marshalInput(req.input.value);
    && (json.Failure? ==> p.Stop? && p.err == Wrapped(errMarshalInput, json.error))
    && (json.Success? && env.unmarshalConfig(json.value).Failure? ==>
          p.Stop? && p.err == Wrapped(errUnmarshalInputPrefix + BytesToString(json.value), env.unmarshalConfig(json.value).error))
  }

  /** Marshals the request's input to JSON and decodes that as the run's
      config, whose timeout falls back to DefaultTimeout. */
  function DecodeConfig(env: Env, req: Request): (p: Phase<Decoded>)
    requires req.input.Some?
    ensures Follows(p.trace, DecodeActions[2..], p.Continue?)
    ensures p.Stop? ==> p.err != Plain(errNoInput)
    ensures ConfigErrorsWrapped(env, req, p)
    ensures p.Continue? ==>
      && p.value.req == req
      && Container.ConfigFromRequest(req, env.marshalInput, env.unmarshalConfig) == Success(p.value.conf)
      && p.value.timeout == Timeout(p.value.conf.spec.runFunctionConfig)
  {
    var confJSON := env.marshalInput(req.input.value);
    if confJSON.Failure? then
      Stop([Did(MarshalInput, false)], Wrapped(errMarshalInput, confJSON.error))
    else
      var conf := env.unmarshalConfig(confJSON.value);
      if conf.Failure? then
        Stop([Did(MarshalInput, true), Did(UnmarshalConfig, false)],
             Wrapped(errUnmarshalInputPrefix + BytesToString(confJSON.value), conf.error))
      else
        Continue([Did(MarshalInput, true), Did(UnmarshalConfig, true)],
                 Decoded(req, conf.value, Timeout(conf.value.spec.runFunctionConfig)))
  }

  /** The context the error of a failed preparation or runtime step is
      wrapped in. The decoding steps, the cleanup and the write are not
      steps of this kind; Decode and Proceed state their errors. */
  function Stage(a: Action): string {
    match a
    case NewBundler(_) => errNewBundleStore
    case NewDigestStore => errNewDigestStore
    case ParseReference(_) => errParseRef
    case ParseCABundle => errParseCABundle
    case PullImage(_) => errPull
    case CreateBundle => errBundleFn
    case MakeRuntimeRoot => errMkRuntimeRootdir
    case MarshalRequest => errMarshalRequest
    case StdoutPipe | StderrPipe | StartRuntime(_) | ReadStdout | ReadStderr | WaitRuntime => errRuntime
    case _ => ""
  }

  /** Every failed step's error is wrapped in the context of its stage. */
  predicate InStageContext(s: seq<Step>) {
    forall i :: 0 <= i < |s| && s[i].failure.Some? ==>
      s[i].failure.value.Wrapped? && s[i].failure.value.context == Stage(s[i].action)
  }

  /** Steps preparing the bundle from some point on: none cleans up, each
      error is wrapped in its stage's context, a reference is only parsed
      for `image`, and the CA bundle only parsed when one is configured. */
  predicate Prepares(c: Command, image: string, s: seq<Step>) {
    && Bundles(s)
    && InStageContext(s)
    && (forall i :: 0 <= i < |s| ==> !s[i].cleansUp)
    && (forall i :: 0 <= i < |s| && s[i].action.ParseReference? ==> s[i].action.image == image)
    && (forall i :: 0 <= i < |s| && s[i].action == ParseCABundle ==> c.caBundlePath != "")
  }

  /** A step before the bundle exists that keeps to those rules keeps a
      list preparing it. */
  lemma {:induction false} PreparesThen(c: Command, image: string, st: Step, rest: seq<Step>)
    requires BeforeBundle(st.action) && !st.cleansUp
    requires st.failure.Some? ==> st.failure.value.Wrapped? && st.failure.value.context == Stage(st.action)
    requires st.action.ParseReference? ==> st.action.image == image
    requires st.action == ParseCABundle ==> c.caBundlePath != ""
    requires st.failure.None? ==> Prepares(c, image, rest)
    ensures Prepares(c, image, Then(st, rest))
  {
    BundlesThen(st, rest);
  }

  /** The steps that prepare the bundle: choose the bundler, open the
      digest store, then resolve and pull the image and create the bundle.
      The list ends at the first step that fails. */
  function PrepareSteps(c: Command, registry: string, defaultImage: string, env: Env, conf: RequestConfig): (s: seq<Step>)
    ensures Prepares(c, ImageFor(conf.spec.image, defaultImage), s)
    ensures s[0] == Step(BundlerEvent(env.overlaySupported, ChooseBundler(env.overlaySupported, env.newCachingBundler)).action,
                         ErrorOf(ChooseBundler(env.overlaySupported, env.newCachingBundler)), false)
  {
    var kind := ChooseBundler(env.overlaySupported, env.newCachingBundler);
    var image := ImageFor(conf.spec.image, defaultImage);
    var first := Step(BundlerEvent(env.overlaySupported, kind).action, ErrorOf(kind), false);
    var store := Step(NewDigestStore, Wrap(env.newDigestStore, errNewDigestStore), false);
    var rest := if kind.Failure? || env.newDigestStore.Some? then [] else Resolve(c, registry, env, conf, kind.value, image);
    var afterFirst := if kind.Failure? then [] else (PreparesThen(c, image, store, rest); Then(store, rest));
    PreparesThen(c, image, first, afterFirst);
    Then(first, afterFirst)
  }

  /** Parses the image reference against the default registry, then pulls
      the image and creates the bundle. */
  function Resolve(c: Command, registry: string, env: Env, conf: RequestConfig, kind: BundlerKind, image: string): (s: seq<Step>)
    ensures Prepares(c, image, s)
  {
    var ref := env.parseReference(image, registry);
    var parse := Step(ParseReference(image), Wrap(ErrorOf(ref), errParseRef), false);
    var rest := if ref.Failure? then [] else Pull(c, env, conf, kind, image, ref.value);
    PreparesThen(c, image, parse, rest);
    Then(parse, rest)
  }

  /** What a preparation does once the reference is parsed: parse the CA
      bundle when one is configured, pull the image, create the bundle. */
  function PullActions(c: Command, ref: Reference): seq<Action> {
    (if c.caBundlePath != "" then [ParseCABundle] else []) + [PullImage(ref), CreateBundle]
  }

  /** Parses the custom CA bundle when one is configured, then fetches. */
  function Pull(c: Command, env: Env, conf: RequestConfig, kind: BundlerKind, image: string, ref: Reference): (s: seq<Step>)
    ensures Prepares(c, image, s)
  {
    var fetch := Fetch(c, env, conf, kind, image, ref);
    var ca := Step(ParseCABundle, Wrap(env.parseCertificates, errParseCABundle), false);
    if c.caBundlePath != "" then (PreparesThen(c, image, ca, fetch); Then(ca, fetch)) else fetch
  }

  /** Pulls the image with the request's pull config (and the custom CA
      bundle when one is configured), and creates the bundle with the
      request's RunFunctionConfig. */
  function Fetch(c: Command, env: Env, conf: RequestConfig, kind: BundlerKind, image: string, ref: Reference): (s: seq<Step>)
    ensures Prepares(c, image, s)
  {
    var pulled := env.pull(ref, conf.spec.imagePullConfig, c.caBundlePath != "");
    var pull := Step(PullImage(ref), Wrap(ErrorOf(pulled), errPull), false);
    var bundle := if pulled.Failure? then [] else
      [Step(CreateBundle, Wrap(ErrorOf(env.bundle(kind, pulled.value, env.runID, conf.spec.runFunctionConfig)), errBundleFn), false)];
    assert bundle != [] ==> Prepares(c, image, bundle);
    PreparesThen(c, image, pull, bundle);
    Then(pull, bundle)
  }

  /** What the runtime wrote to its standard output, bounded by
      MaxStdioBytes; it is only written back once every runtime step
      succeeded, reading it among them. */
  function Stdout(c: Command, env: Env): Bytes {
    var r := ReadStdio(env.host.stdout, c.maxStdioBytes);
    if r.Success? then r.value else []
  }

  /** The error of a failed wait for the runtime: an exit error on its chain
      is given the runtime's captured standard error, and the whole is
      wrapped as a runtime error. */
  function WaitError(wait: Error, stderr: Bytes): (e: Error)
    ensures e.Wrapped? && e.context == errRuntime
    ensures Message(e) == errRuntime + ": " + Message(wait)
    ensures AsExitError(wait).Some? ==> AsExitError(e).Some? && AsExitError(e).value.stderr == stderr
    ensures AsExitError(wait).None? ==> e.inner == wait
  {
    Wrapped(errRuntime, SetExitStderr(wait, stderr))
  }

  /** Runtime steps from some point on: each cleans the bundle up when it
      fails, and a failed wait carries the runtime's standard error. */
  predicate Runs(c: Command, env: Env, s: seq<Step>) {
    && Launches(s)
    && InStageContext(s)
    && (forall i :: 0 <= i < |s| ==> s[i].cleansUp)
    && (forall i :: 0 <= i < |s| && s[i].action == WaitRuntime ==>
         && ReadStdio(env.host.stderr, c.maxStdioBytes).Success?
         && s[i].failure == if env.host.wait.None? then None
                            else Some(WaitError(env.host.wait.value, ReadStdio(env.host.stderr, c.maxStdioBytes).value)))
  }

  /** A runtime step other than the wait, cleaning up when it fails, keeps
      a list running the bundle. */
  lemma {:induction false} RunsThen(c: Command, env: Env, st: Step, rest: seq<Step>)
    requires AfterBundleAction(st.action) && st.action != WaitRuntime && st.cleansUp
    requires st.failure.Some? ==> st.failure.value.Wrapped? && st.failure.value.context == Stage(st.action)
    requires st.failure.None? ==> Runs(c, env, rest)
    ensures Runs(c, env, Then(st, rest))
  {
    LaunchesThen(st, rest);
  }

  /** The steps that run the bundle: make the runtime's root directory,
      marshal the request as JSON for its standard input, then start the
      runtime and collect what it writes. The list ends at the first step
      that fails, and when none fails the runtime's standard output was
      read successfully. */
  function RuntimeSteps(c: Command, env: Env, req: Request): (s: seq<Step>)
    ensures Runs(c, env, s)
    ensures FirstFailure(s) == |s| ==> ReadStdio(env.host.stdout, c.maxStdioBytes).Success?
  {
    var h := env.host;
    var mkdir := Step(MakeRuntimeRoot, Wrap(h.mkdirRuntimeRoot, errMkRuntimeRootdir), true);
    var reqJSON := env.marshalRequest(req);
    var marshal := Step(MarshalRequest, Wrap(ErrorOf(reqJSON), errMarshalRequest), true);
    var rest := if h.mkdirRuntimeRoot.Some? || reqJSON.Failure? then [] else Start(c, env, reqJSON.value);
    var afterMkdir := if h.mkdirRuntimeRoot.Some? then [] else (RunsThen(c, env, marshal, rest); Then(marshal, rest));
    RunsThen(c, env, mkdir, afterMkdir);
    Then(mkdir, afterMkdir)
  }

  /** Sets up the runtime's standard output and standard error pipes and
      starts it with `stdin` as its standard input, then collects. */
  function Start(c: Command, env: Env, stdin: Bytes): (s: seq<Step>)
    ensures Runs(c, env, s)
    ensures FirstFailure(s) == |s| ==> ReadStdio(env.host.stdout, c.maxStdioBytes).Success?
  {
    var h := env.host;
    var outPipe := Step(StdoutPipe, Wrap(h.stdoutPipe, errRuntime), true);
    var errPipe := Step(StderrPipe, Wrap(h.stderrPipe, errRuntime), true);
    var start := Step(StartRuntime(stdin), Wrap(h.start, errRuntime), true);
    var rest := if h.stdoutPipe.Some? || h.stderrPipe.Some? || h.start.Some? then [] else Collect(c, env);
    var fromStart := if h.stdoutPipe.Some? || h.stderrPipe.Some? then [] else (RunsThen(c, env, start, rest); Then(start, rest));
    var fromErrPipe := if h.stdoutPipe.Some? then [] else (RunsThen(c, env, errPipe, fromStart); Then(errPipe, fromStart));
    RunsThen(c, env, outPipe, fromErrPipe);
    Then(outPipe, fromErrPipe)
  }

  /** Reads all of the runtime's standard output, then all of its standard
      error, each bounded by MaxStdioBytes, then waits for the runtime. */
  function Collect(c: Command, env: Env): (s: seq<Step>)
    ensures Runs(c, env, s)
    ensures FirstFailure(s) == |s| ==> ReadStdio(env.host.stdout, c.maxStdioBytes).Success?
  {
    var h := env.host;
    var stdout := ReadStdio(h.stdout, c.maxStdioBytes);
    var stderr := ReadStdio(h.stderr, c.maxStdioBytes);
    var readOut := Step(ReadStdout, Wrap(ErrorOf(stdout), errRuntime), true);
    var readErr := Step(ReadStderr, Wrap(ErrorOf(stderr), errRuntime), true);
    var wait := if stdout.Failure? || stderr.Failure? then [] else
      [Step(WaitRuntime, if h.wait.None? then None else Some(WaitError(h.wait.value, stderr.value)), true)];
    var fromErr := if stdout.Failure? then [] else (RunsThen(c, env, readErr, wait); Then(readErr, wait));
    RunsThen(c, env, readOut, fromErr);
    Then(readOut, fromErr)
  }

  /** With every step successful, a pull parses the CA bundle if one is
      configured, pulls the image, then creates the bundle. */
  lemma {:induction false} PullOrder(c: Command, env: Env, conf: RequestConfig, kind: BundlerKind, image: string, ref: Reference)
    ensures var s := Pull(c, env, conf, kind, image, ref);
      FirstFailure(s) == |s| ==> Actions(s) == PullActions(c, ref)
  {
    var s := Pull(c, env, conf, kind, image, ref);
    var fetch := Fetch(c, env, conf, kind, image, ref);
    var ca := Step(ParseCABundle, Wrap(env.parseCertificates, errParseCABundle), false);
    assert s == if c.caBundlePath != "" then Then(ca, fetch) else fetch;
    if FirstFailure(s) == |s| {
      if c.caBundlePath != "" {
        ActionsThen(ca, fetch);
      }
      FetchOrder(c, env, conf, kind, image, ref);
    }
  }

  /** With every step successful, a fetch pulls the image, then creates the
      bundle. */
  lemma {:induction false} FetchOrder(c: Command, env: Env, conf: RequestConfig, kind: BundlerKind, image: string, ref: Reference)
    ensures var s := Fetch(c, env, conf, kind, image, ref);
      FirstFailure(s) == |s| ==> Actions(s) == [PullImage(ref), CreateBundle]
  {
    var s := Fetch(c, env, conf, kind, image, ref);
    var pulled := env.pull(ref, conf.spec.imagePullConfig, c.caBundlePath != "");
    var pull := Step(PullImage(ref), Wrap(ErrorOf(pulled), errPull), false);
    var bundle := if pulled.Failure? then [] else
      [Step(CreateBundle, Wrap(ErrorOf(env.bundle(kind, pulled.value, env.runID, conf.spec.runFunctionConfig)), errBundleFn), false)];
    assert s == Then(pull, bundle);
    if FirstFailure(s) == |s| {
      ActionsThen(pull, bundle);
      ActionsOne(bundle[0]);
    }
  }

  /** With every step successful, resolving parses the reference, then
      pulls with it. */
  lemma {:induction false} ResolveOrder(c: Command, registry: string, env: Env, conf: RequestConfig, kind: BundlerKind, image: string)
    ensures var s := Resolve(c, registry, env, conf, kind, image);
      FirstFailure(s) == |s| ==>
        && env.parseReference(image, registry).Success?
        && Actions(s) == [ParseReference(image)] + PullActions(c, env.parseReference(image, registry).value)
  {
    var s := Resolve(c, registry, env, conf, kind, image);
    var ref := env.parseReference(image, registry);
    var parse := Step(ParseReference(image), Wrap(ErrorOf(ref), errParseRef), false);
    var rest := if ref.Failure? then [] else Pull(c, env, conf, kind, image, ref.value);
    assert s == Then(parse, rest);
    if FirstFailure(s) == |s| {
      ActionsThen(parse, rest);
      PullOrder(c, env, conf, kind, image, ref.value);
    }
  }

  /** A preparation that fails nowhere chose its bundler, opened the digest
      store, parsed the reference to `image`, parsed the CA bundle if one is
      configured, pulled the image and created the bundle, in that order. */
  lemma {:induction false} PrepareOrder(c: Command, registry: string, defaultImage: string, env: Env, conf: RequestConfig)
    ensures var s := PrepareSteps(c, registry, defaultImage, env, conf);
      var image := ImageFor(conf.spec.image, defaultImage);
      FirstFailure(s) == |s| ==>
        && ChooseBundler(env.overlaySupported, env.newCachingBundler).Success?
        && env.newDigestStore.None?
        && env.parseReference(image, registry).Success?
        && Actions(s) == [NewBundler(if env.overlaySupported then Overlay else Uncompressed)]
                         + ([NewDigestStore] + ([ParseReference(image)] + PullActions(c, env.parseReference(image, registry).value)))
  {
    var s := PrepareSteps(c, registry, defaultImage, env, conf);
    var kind := ChooseBundler(env.overlaySupported, env.newCachingBundler);
    var image := ImageFor(conf.spec.image, defaultImage);
    var first := Step(BundlerEvent(env.overlaySupported, kind).action, ErrorOf(kind), false);
    var store := Step(NewDigestStore, Wrap(env.newDigestStore, errNewDigestStore), false);
    var rest := if kind.Failure? || env.newDigestStore.Some? then [] else Resolve(c, registry, env, conf, kind.value, image);
    var afterFirst := if kind.Failure? then [] else Then(store, rest);
    assert s == Then(first, afterFirst);
    if FirstFailure(s) == |s| {
      assert kind.Success? && FirstFailure(afterFirst) == |afterFirst|;
      assert env.newDigestStore.None? && FirstFailure(rest) == |rest|;
      ResolveOrder(c, registry, env, conf, kind.value, image);
      var resolved := [ParseReference(image)] + PullActions(c, env.parseReference(image, registry).value);
      assert Actions(rest) == resolved;
      ActionsThen(store, rest);
      ActionsThen(first, afterFirst);
      assert first.action == NewBundler(if env.overlaySupported then Overlay else Uncompressed);
    }
  }

  /** With every step successful, collecting reads the standard output,
      then the standard error, then waits for the runtime. */
  lemma {:induction false} CollectOrder(c: Command, env: Env)
    ensures var s := Collect(c, env);
      FirstFailure(s) == |s| ==> Actions(s) == CollectActions
  {
    var s := Collect(c, env);
    var h := env.host;
    var stdout := ReadStdio(h.stdout, c.maxStdioBytes);
    var stderr := ReadStdio(h.stderr, c.maxStdioBytes);
    var readOut := Step(ReadStdout, Wrap(ErrorOf(stdout), errRuntime), true);
    var readErr := Step(ReadStderr, Wrap(ErrorOf(stderr), errRuntime), true);
    var wait := if stdout.Failure? || stderr.Failure? then [] else
      [Step(WaitRuntime, if h.wait.None? then None else Some(WaitError(h.wait.value, stderr.value)), true)];
    var fromErr := if stdout.Failure? then [] else Then(readErr, wait);
    assert s == Then(readOut, fromErr);
    if FirstFailure(s) == |s| {
      ActionsThen(readOut, fromErr);
      assert stdout.Success?;
      ActionsThen(readErr, wait);
      assert stderr.Success?;
      assert Actions(wait) == [WaitRuntime];
    }
  }

  /** With every step successful, starting sets up both pipes, starts the
      runtime on `stdin` and collects. */
  lemma {:induction false} StartOrder(c: Command, env: Env, stdin: Bytes)
    ensures var s := Start(c, env, stdin);
      FirstFailure(s) == |s| ==> Actions(s) == StartActions(stdin)
  {
    var s := Start(c, env, stdin);
    var h := env.host;
    var outPipe := Step(StdoutPipe, Wrap(h.stdoutPipe, errRuntime), true);
    var errPipe := Step(StderrPipe, Wrap(h.stderrPipe, errRuntime), true);
    var start := Step(StartRuntime(stdin), Wrap(h.start, errRuntime), true);
    var rest := if h.stdoutPipe.Some? || h.stderrPipe.Some? || h.start.Some? then [] else Collect(c, env);
    var fromStart := if h.stdoutPipe.Some? || h.stderrPipe.Some? then [] else Then(start, rest);
    var fromErrPipe := if h.stdoutPipe.Some? then [] else Then(errPipe, fromStart);
    assert s == Then(outPipe, fromErrPipe);
    if FirstFailure(s) == |s| {
      assert h.stdoutPipe.None? && FirstFailure(fromErrPipe) == |fromErrPipe|;
      assert h.stderrPipe.None? && FirstFailure(fromStart) == |fromStart|;
      assert h.start.None? && FirstFailure(rest) == |rest|;
      CollectOrder(c, env);
      ActionsThen(start, rest);
      ActionsThen(errPipe, fromStart);
      ActionsThen(outPipe, fromErrPipe);
    }
  }

  /** A run of the bundle that fails nowhere made the runtime's root
      directory, marshalled the request, and started the runtime on it,
      in the order of RuntimeActions. */
  lemma {:induction false} RuntimeOrder(c: Command, env: Env, req: Request)
    ensures var s := RuntimeSteps(c, env, req);
      FirstFailure(s) == |s| ==>
        env.marshalRequest(req).Success? && Actions(s) == RuntimeActions(env.marshalRequest(req).value)
  {
    var s := RuntimeSteps(c, env, req);
    var h := env.host;
    var mkdir := Step(MakeRuntimeRoot, Wrap(h.mkdirRuntimeRoot, errMkRuntimeRootdir), true);
    var reqJSON := env.marshalRequest(req);
    var marshal := Step(MarshalRequest, Wrap(ErrorOf(reqJSON), errMarshalRequest), true);
    var rest := if h.mkdirRuntimeRoot.Some? || reqJSON.Failure? then [] else Start(c, env, reqJSON.value);
    var afterMkdir := if h.mkdirRuntimeRoot.Some? then [] else Then(marshal, rest);
    assert s == Then(mkdir, afterMkdir);
    if FirstFailure(s) == |s| {
      assert h.mkdirRuntimeRoot.None? && FirstFailure(afterMkdir) == |afterMkdir|;
      assert reqJSON.Success? && FirstFailure(rest) == |rest|;
      StartOrder(c, env, reqJSON.value);
      ActionsThen(marshal, rest);
      ActionsThen(mkdir, afterMkdir);
    }
  }

  /** Command.Run(registry, defaultImage): decode the request, prepare the
      bundle, run it, clean it up and write the runtime's standard output. */
  function Run(c: Command, registry: string, defaultImage: string, env: Env): (x: Exit)
    ensures NoInput(env) ==>
      x == Exit([Did(ReadRequest, true), Did(UnmarshalRequest, true)], Some(Plain(errNoInput)), None)
  {
    var d := Decode(env);
    if d.Stop? then Exit(d.trace, Some(d.err), None)
    else
      Proceed(d.trace, PrepareSteps(c, registry, defaultImage, env, d.value.conf), RuntimeSteps(c, env, d.value.req),
              env.host.cleanup, Stdout(c, env), env.host.writeStdout)
  }

  /** Decoding performs only decoding steps, all successful when it
      continues, none after a failure. */
  lemma {:induction false} DecodeKeepsOrder(env: Env)
    ensures PhaseBeforeBundle(Decode(env))
    ensures forall e :: e in Decode(env).trace ==> Decoding(e.action)
  {
    FollowsBeforeBundle(Decode(env), DecodeActions);
  }

  /** A run that stops while decoding performs only the prelude's steps,
      none of them the bundle's creation or cleanup. */
  lemma {:induction false} DecodeStops(env: Env)
    requires Decode(env).Stop?
    ensures Cleanups(Decode(env).trace) == 0
    ensures !BundleCreated(Decode(env).trace)
    ensures forall a :: AfterBundleAction(a) ==> Did(a, false) !in Decode(env).trace
  {
    DecodeKeepsOrder(env);
    DecodingOnly(Decode(env).trace);
  }

  /** The bundle's Cleanup is called exactly once when the bundle was
      created, and never otherwise. */
  lemma {:induction false} RunCleansUpOnce(c: Command, registry: string, defaultImage: string, env: Env)
    ensures var x := Run(c, registry, defaultImage, env);
      Cleanups(x.trace) == if BundleCreated(x.trace) then 1 else 0
  {
    var d := Decode(env);
    DecodeKeepsOrder(env);
    if d.Stop? {
      DecodeStops(env);
    } else {
      var pre := PrepareSteps(c, registry, defaultImage, env, d.value.conf);
      var post := RuntimeSteps(c, env, d.value.req);
      ProceedCleansUpOnce(d.trace, pre, post, env.host.cleanup, Stdout(c, env), env.host.writeStdout);
      ProceedCreatesBundle(d.trace, pre, post, env.host.cleanup, Stdout(c, env), env.host.writeStdout);
    }
  }

  /** No step follows a failed one, except the bundle's cleanup. */
  lemma {:induction false} RunAborts(c: Command, registry: string, defaultImage: string, env: Env)
    ensures AbortsAtFirstFailure(Run(c, registry, defaultImage, env).trace)
  {
    var d := Decode(env);
    DecodeKeepsOrder(env);
    if d.Continue? {
      var pre := PrepareSteps(c, registry, defaultImage, env, d.value.conf);
      var post := RuntimeSteps(c, env, d.value.req);
      ProceedAborts(d.trace, pre, post, env.host.cleanup, Stdout(c, env), env.host.writeStdout);
    }
  }

  /** The response is written only as the last step, after a successful
      wait and a successful cleanup, and it is the runtime's standard output
      bounded by MaxStdioBytes. The run returns nil exactly when that write
      happened and succeeded. */
  lemma {:induction false} RunRespondsLast(c: Command, registry: string, defaultImage: string, env: Env)
    ensures var x := Run(c, registry, defaultImage, env);
      && RespondsLast(x)
      && (x.response.Some? ==>
           && ReadStdio(env.host.stdout, c.maxStdioBytes).Success?
           && x.response.value == ReadStdio(env.host.stdout, c.maxStdioBytes).value)
      && (x.response.Some? ==> env.host.cleanup.None? && env.host.wait.None?)
      && (x.err.None? <==> x.response.Some? && env.host.writeStdout.None?)
  {
    var d := Decode(env);
    if d.Continue? {
      var pre := PrepareSteps(c, registry, defaultImage, env, d.value.conf);
      var post := RuntimeSteps(c, env, d.value.req);
      ProceedRespondsLast(d.trace, pre, post, env.host.cleanup, Stdout(c, env), env.host.writeStdout);
      var x := Run(c, registry, defaultImage, env);
      if x.response.Some? {
        assert post[|post| - 1].action == WaitRuntime;
      }
    }
  }

  /** A failed wait for the runtime is the run's error: wrapped as a
      runtime error, with the runtime's captured standard error attached to
      an exit error on its chain. */
  lemma {:induction false} RunWaitFails(c: Command, registry: string, defaultImage: string, env: Env)
    requires Did(WaitRuntime, false) in Run(c, registry, defaultImage, env).trace
    ensures env.host.wait.Some? && ReadStdio(env.host.stderr, c.maxStdioBytes).Success?
    ensures Run(c, registry, defaultImage, env).err ==
      Some(WaitError(env.host.wait.value, ReadStdio(env.host.stderr, c.maxStdioBytes).value))
  {
    var d := Decode(env);
    DecodeKeepsOrder(env);
    if d.Stop? {
      DecodeStops(env);
    } else {
      var pre := PrepareSteps(c, registry, defaultImage, env, d.value.conf);
      var post := RuntimeSteps(c, env, d.value.req);
      ProceedFailsAt(d.trace, pre, post, env.host.cleanup, Stdout(c, env), env.host.writeStdout, WaitRuntime);
      var k := FirstFailure(post);
      assert post[k].action == WaitRuntime && Runs(c, env, post);
    }
  }

  /** The only image reference parsed is the request's image, or the
      default image when the request names none; the CA bundle is only
      parsed when one is configured. */
  lemma {:induction false} RunResolvesImage(c: Command, registry: string, defaultImage: string, env: Env, e: Event)
    requires e in Run(c, registry, defaultImage, env).trace
    ensures e.action.ParseReference? ==>
      Decode(env).Continue? && e.action.image == ImageFor(Decode(env).value.conf.spec.image, defaultImage)
    ensures e.action == ParseCABundle ==> c.caBundlePath != ""
  {
    var d := Decode(env);
    DecodeKeepsOrder(env);
    if e in d.trace {
      assert Decoding(e.action);
    } else {
      var pre := PrepareSteps(c, registry, defaultImage, env, d.value.conf);
      var post := RuntimeSteps(c, env, d.value.req);
      PreparedOrRun(d.trace, pre, post, env.host.cleanup, Stdout(c, env), env.host.writeStdout, e);
      if ActionOf(pre, e.action) {
        var j :| 0 <= j < |pre| && pre[j].action == e.action;
      }
    }
  }

  /** An event of a run past decoding that parses a reference or the CA
      bundle is one of the steps preparing the bundle. */
  lemma {:induction false} PreparedOrRun(done: seq<Event>, pre: seq<Step>, post: seq<Step>, cleanup: Outcome, response: Bytes, write: Outcome, e: Event)
    requires Launches(post)
    requires e in Proceed(done, pre, post, cleanup, response, write).trace && e !in done
    ensures e.action.ParseReference? || e.action == ParseCABundle ==> ActionOf(pre, e.action)
  {
    ProceedEvents(done, pre, post, cleanup, response, write);
    if ActionOf(post, e.action) {
      var j :| 0 <= j < |post| && post[j].action == e.action;
      assert AfterBundleAction(post[j].action);
    }
  }
}
