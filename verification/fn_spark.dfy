/** The function-runtime-oci spark command: run inside the user namespace,
    it reads a RunFunctionRequest from standard input, opens the function's
    image from a tarball, bundles it, runs the OCI runtime on the bundle and
    writes the runtime's standard output back. As written, a failure to
    marshal the request after the bundle exists returns without cleaning the
    bundle up; `Fixed` is the run with that cleanup in place. */
module FnSpark {
  import opened Base
  import opened Errors
  import opened Stdio
  import opened Pipeline
  import FnConfig

  const errOpenTarBall := "cannot open OCI image tarball"
  const errMarshalRequest := "cannot marshal request data to stdout"
  const errStdoutPipe := "cannot get stdout pipe"
  const errStderrPipe := "cannot get stderr pipe"
  const errStart := "cannot start command"
  const errReadStdout := "cannot read stdout"
  const errReadStderr := "cannot read stderr"
  const errWait := "while waiting for command"

  /** The command's flags, with its embedded resources configuration. */
  datatype Command = Command(cacheDir: string, runtime: string, maxStdioBytes: Int64, resources: FnConfig.ResourcesConfig)

  /** A RunFunctionRequest of this generation; its contents are opaque here. */
  datatype Request = Request(payload: Bytes)

  /** The answers of everything outside the model: standard input, the JSON
      and protobuf conversions, the run ID, the bundler probe and
      constructor, the image tarball (given its path), the bundler (given
      its kind, the image, the run ID and the resources configuration its
      spec option derives from), and the host after bundling. */
  datatype Env = Env(
    stdin: Result<Bytes>,
    unmarshalRequest: Bytes -> Result<Request>,
    runID: string,
    overlaySupported: bool,
    newCachingBundler: Outcome,
    openTarball: string -> Result<Image>,
    bundle: (BundlerKind, Image, string, Option<FnConfig.ResourcesConfig>) -> Result<Bundle>,
    marshalRequest: Request -> Result<Bytes>,
    host: Host)

  /** Whether a failure to marshal the request cleans the bundle up: not as
      written, but evidently intended, as every other failure after the
      bundle exists does. */
  datatype Variant = AsWritten | Fixed

  /** The steps that read and decode a request, in order. */
  const DecodeActions: seq<Action> := [ReadRequest, UnmarshalRequest]

  /** Reads the request from standard input and decodes it as JSON. */
  function Decode(env: Env): (p: Phase<Request>)
    ensures Follows(p.trace, DecodeActions, p.Continue?)
    ensures p.Stop? && env.stdin.Failure? ==> p.err == Wrapped(errReadRequest, env.stdin.error)
    ensures p.Stop? && env.stdin.Success? ==>
      env.unmarshalRequest(env.stdin.value).Failure? && p.err == Wrapped(errUnmarshalRequest, env.unmarshalRequest(env.stdin.value).error)
    ensures p.Continue? <==> env.stdin.Success? && env.unmarshalRequest(env.stdin.value).Success?
    ensures p.Continue? ==> p.value == env.unmarshalRequest(env.stdin.value).value
  {
    if env.stdin.Failure? then Stop([Did(ReadRequest, false)], Wrapped(errReadRequest, env.stdin.error))
    else
      var req := env.unmarshalRequest(env.stdin.value);
      if req.Failure? then
        Stop([Did(ReadRequest, true), Did(UnmarshalRequest, false)], Wrapped(errUnmarshalRequest, req.error))
      else
        Continue([Did(ReadRequest, true), Did(UnmarshalRequest, true)], req.value)
  }

  /** Decoding performs only decoding steps, all successful when it
      continues, none after a failure. */
  lemma {:induction false} DecodeKeepsOrder(env: Env)
    ensures PhaseBeforeBundle(Decode(env))
    ensures forall e :: e in Decode(env).trace ==> Decoding(e.action)
  {
    FollowsBeforeBundle(Decode(env), DecodeActions);
  }

  /** The context the error of a failed preparation or runtime step is
      wrapped in. A failed wait's context is WaitMessage, which also
      carries the runtime's standard error; the decoding steps, the cleanup
      and the write are not steps of this kind. */
  function Stage(a: Action): string {
    match a
    case NewBundler(_) => errNewBundleStore
    case OpenTarball => errOpenTarBall
    case CreateBundle => errBundleFn
    case MakeRuntimeRoot => errMkRuntimeRootdir
    case MarshalRequest => errMarshalRequest
    case StdoutPipe => errStdoutPipe
    case StderrPipe => errStderrPipe
    case StartRuntime(_) => errStart
    case ReadStdout => errReadStdout
    case ReadStderr => errReadStderr
    case _ => ""
  }

  /** Every failed step but the wait has its error wrapped in the context
      of its stage. */
  predicate InStageContext(s: seq<Step>) {
    forall i :: 0 <= i < |s| && s[i].failure.Some? && s[i].action != WaitRuntime ==>
      s[i].failure.value.Wrapped? && s[i].failure.value.context == Stage(s[i].action)
  }

  /** Steps preparing the bundle, none of which cleans up, each error
      wrapped in its stage's context. */
  predicate Prepares(s: seq<Step>) {
    Bundles(s) && InStageContext(s) && forall i :: 0 <= i < |s| ==> !s[i].cleansUp
  }

  /** A step before the bundle exists that does not clean up and wraps its
      error in its stage's context keeps a list preparing it. */
  lemma {:induction false} PreparesThen(st: Step, rest: seq<Step>)
    requires BeforeBundle(st.action) && !st.cleansUp
    requires st.failure.Some? ==> st.failure.value.Wrapped? && st.failure.value.context == Stage(st.action)
    requires st.failure.None? ==> Prepares(rest)
    ensures Prepares(Then(st, rest))
  {
    BundlesThen(st, rest);
  }

  /** The steps that prepare the bundle: choose the bundler, open the image
      tarball, and create the bundle with the command's resources
      configuration. The list ends at the first step that fails. */
  function PrepareSteps(c: Command, imageTarBall: string, env: Env): (s: seq<Step>)
    ensures Prepares(s)
    ensures s[0] == Step(BundlerEvent(env.overlaySupported, ChooseBundler(env.overlaySupported, env.newCachingBundler)).action,
                         ErrorOf(ChooseBundler(env.overlaySupported, env.newCachingBundler)), false)
  {
    var kind := ChooseBundler(env.overlaySupported, env.newCachingBundler);
    var img := env.openTarball(imageTarBall);
    var first := Step(BundlerEvent(env.overlaySupported, kind).action, ErrorOf(kind), false);
    var open := Step(OpenTarball, Wrap(ErrorOf(img), errOpenTarBall), false);
    var bundle := if kind.Failure? || img.Failure? then [] else
      [Step(CreateBundle, Wrap(ErrorOf(env.bundle(kind.value, img.value, env.runID, Some(c.resources))), errBundleFn), false)];
    assert bundle != [] ==> Prepares(bundle);
    var afterFirst := if kind.Failure? then [] else (PreparesThen(open, bundle); Then(open, bundle));
    PreparesThen(first, afterFirst);
    Then(first, afterFirst)
  }

  /** The message a failed wait is wrapped with: when the runtime exited
      with an error, it carries the runtime's captured standard error. */
  function WaitMessage(wait: Error, stderr: Bytes): (msg: string)
    ensures AsExitError(wait).Some? ==> msg == errWait + ": " + BytesToString(stderr)
    ensures AsExitError(wait).None? ==> msg == errWait
  {
    if AsExitError(wait).Some? then errWait + ": " + BytesToString(stderr) else errWait
  }

  /** Runtime steps from some point on: each error is wrapped in its
      stage's context, each step cleans the bundle up when it fails, except
      a failure to marshal the request as written; a failed wait is wrapped
      with WaitMessage. */
  predicate Runs(c: Command, env: Env, v: Variant, s: seq<Step>) {
    && Launches(s)
    && InStageContext(s)
    && (forall i :: 0 <= i < |s| ==> (s[i].cleansUp <==> s[i].action != MarshalRequest || v == Fixed))
    && (forall i :: 0 <= i < |s| && s[i].action == WaitRuntime ==>
         && ReadStdio(env.host.stderr, c.maxStdioBytes).Success?
         && s[i].failure == if env.host.wait.None? then None
                            else Some(Wrapped(WaitMessage(env.host.wait.value, ReadStdio(env.host.stderr, c.maxStdioBytes).value),
                                              env.host.wait.value)))
  }

  /** A runtime step other than the wait keeps a list running the bundle. */
  lemma {:induction false} RunsThen(c: Command, env: Env, v: Variant, st: Step, rest: seq<Step>)
    requires AfterBundleAction(st.action) && st.action != WaitRuntime
    requires st.cleansUp <==> st.action != MarshalRequest || v == Fixed
    requires st.failure.Some? ==> st.failure.value.Wrapped? && st.failure.value.context == Stage(st.action)
    requires st.failure.None? ==> Runs(c, env, v, rest)
    ensures Runs(c, env, v, Then(st, rest))
  {
    LaunchesThen(st, rest);
  }

  /** The steps that run the bundle: make the runtime's root directory,
      marshal the request as protobuf JSON for the runtime's standard input,
      then start the runtime and collect what it writes. The list ends at
      the first step that fails; when none fails, the runtime's standard
      output was read successfully. */
  function RuntimeSteps(c: Command, env: Env, v: Variant, req: Request): (s: seq<Step>)
    ensures Runs(c, env, v, s)
    ensures FirstFailure(s) == |s| ==> ReadStdio(env.host.stdout, c.maxStdioBytes).Success?
  {
    var h := env.host;
    var mkdir := Step(MakeRuntimeRoot, Wrap(h.mkdirRuntimeRoot, errMkRuntimeRootdir), true);
    var reqJSON := env.marshalRequest(req);
    var marshal := Step(MarshalRequest, Wrap(ErrorOf(reqJSON), errMarshalRequest), v == Fixed);
    var rest := if h.mkdirRuntimeRoot.Some? || reqJSON.Failure? then [] else Start(c, env, v, reqJSON.value);
    var afterMkdir := if h.mkdirRuntimeRoot.Some? then [] else (RunsThen(c, env, v, marshal, rest); Then(marshal, rest));
    RunsThen(c, env, v, mkdir, afterMkdir);
    Then(mkdir, afterMkdir)
  }

  /** Sets up the runtime's standard output and standard error pipes and
      starts it with `stdin` as its standard input, then collects. */
  function Start(c: Command, env: Env, v: Variant, stdin: Bytes): (s: seq<Step>)
    ensures Runs(c, env, v, s)
    ensures FirstFailure(s) == |s| ==> ReadStdio(env.host.stdout, c.maxStdioBytes).Success?
  {
    var h := env.host;
    var outPipe := Step(StdoutPipe, Wrap(h.stdoutPipe, errStdoutPipe), true);
    var errPipe := Step(StderrPipe, Wrap(h.stderrPipe, errStderrPipe), true);
    var start := Step(StartRuntime(stdin), Wrap(h.start, errStart), true);
    var rest := if h.stdoutPipe.Some? || h.stderrPipe.Some? || h.start.Some? then [] else Collect(c, env, v);
    var fromStart := if h.stdoutPipe.Some? || h.stderrPipe.Some? then [] else (RunsThen(c, env, v, start, rest); Then(start, rest));
    var fromErrPipe := if h.stdoutPipe.Some? then [] else (RunsThen(c, env, v, errPipe, fromStart); Then(errPipe, fromStart));
    RunsThen(c, env, v, outPipe, fromErrPipe);
    Then(outPipe, fromErrPipe)
  }

  /** Reads all of the runtime's standard output, then all of its standard
      error, each bounded by MaxStdioBytes, then waits for the runtime. */
  function Collect(c: Command, env: Env, v: Variant): (s: seq<Step>)
    ensures Runs(c, env, v, s)
    ensures FirstFailure(s) == |s| ==> ReadStdio(env.host.stdout, c.maxStdioBytes).Success?
  {
    var h := env.host;
    var stdout := ReadStdio(h.stdout, c.maxStdioBytes);
    var stderr := ReadStdio(h.stderr, c.maxStdioBytes);
    var readOut := Step(ReadStdout, Wrap(ErrorOf(stdout), errReadStdout), true);
    var readErr := Step(ReadStderr, Wrap(ErrorOf(stderr), errReadStderr), true);
    var wait := if stdout.Failure? || stderr.Failure? then [] else
      [Step(WaitRuntime, if h.wait.None? then None else Some(Wrapped(WaitMessage(h.wait.value, stderr.value), h.wait.value)), true)];
    var fromErr := if stdout.Failure? then [] else (RunsThen(c, env, v, readErr, wait); Then(readErr, wait));
    RunsThen(c, env, v, readOut, fromErr);
    Then(readOut, fromErr)
  }

  /** A preparation that fails nowhere chose its bundler, opened the image
      tarball and created the bundle, in that order. */
  lemma {:induction false} PrepareOrder(c: Command, imageTarBall: string, env: Env)
    ensures var s := PrepareSteps(c, imageTarBall, env);
      FirstFailure(s) == |s| ==>
        && ChooseBundler(env.overlaySupported, env.newCachingBundler).Success?
        && env.openTarball(imageTarBall).Success?
        && Actions(s) == [NewBundler(if env.overlaySupported then Overlay else Uncompressed)] + ([OpenTarball] + [CreateBundle])
  {
    var s := PrepareSteps(c, imageTarBall, env);
    var kind := ChooseBundler(env.overlaySupported, env.newCachingBundler);
    var img := env.openTarball(imageTarBall);
    var first := Step(BundlerEvent(env.overlaySupported, kind).action, ErrorOf(kind), false);
    var open := Step(OpenTarball, Wrap(ErrorOf(img), errOpenTarBall), false);
    var bundle := if kind.Failure? || img.Failure? then [] else
      [Step(CreateBundle, Wrap(ErrorOf(env.bundle(kind.value, img.value, env.runID, Some(c.resources))), errBundleFn), false)];
    var afterFirst := if kind.Failure? then [] else Then(open, bundle);
    assert s == Then(first, afterFirst);
    if FirstFailure(s) == |s| {
      assert kind.Success? && FirstFailure(afterFirst) == |afterFirst|;
      assert img.Success?;
      assert Actions(bundle) == [CreateBundle];
      ActionsThen(open, bundle);
      ActionsThen(first, afterFirst);
    }
  }

  /** With every step successful, collecting reads the standard output,
      then the standard error, then waits for the runtime. */
  lemma {:induction false} CollectOrder(c: Command, env: Env, v: Variant)
    ensures var s := Collect(c, env, v);
      FirstFailure(s) == |s| ==> Actions(s) == CollectActions
  {
    var s := Collect(c, env, v);
    var h := env.host;
    var stdout := ReadStdio(h.stdout, c.maxStdioBytes);
    var stderr := ReadStdio(h.stderr, c.maxStdioBytes);
    var readOut := Step(ReadStdout, Wrap(ErrorOf(stdout), errReadStdout), true);
    var readErr := Step(ReadStderr, Wrap(ErrorOf(stderr), errReadStderr), true);
    var wait := if stdout.Failure? || stderr.Failure? then [] else
      [Step(WaitRuntime, if h.wait.None? then None else Some(Wrapped(WaitMessage(h.wait.value, stderr.value), h.wait.value)), true)];
    var fromErr := if stdout.Failure? then [] else Then(readErr, wait);
    assert s == Then(readOut, fromErr);
    if FirstFailure(s) == |s| {
      assert stdout.Success? && FirstFailure(fromErr) == |fromErr|;
      assert stderr.Success?;
      assert Actions(wait) == [WaitRuntime];
      ActionsThen(readErr, wait);
      ActionsThen(readOut, fromErr);
    }
  }

  /** With every step successful, starting sets up both pipes, starts the
      runtime on `stdin` and collects. */
  lemma {:induction false} StartOrder(c: Command, env: Env, v: Variant, stdin: Bytes)
    ensures var s := Start(c, env, v, stdin);
      FirstFailure(s) == |s| ==> Actions(s) == StartActions(stdin)
  {
    var s := Start(c, env, v, stdin);
    var h := env.host;
    var outPipe := Step(StdoutPipe, Wrap(h.stdoutPipe, errStdoutPipe), true);
    var errPipe := Step(StderrPipe, Wrap(h.stderrPipe, errStderrPipe), true);
    var start := Step(StartRuntime(stdin), Wrap(h.start, errStart), true);
    var rest := if h.stdoutPipe.Some? || h.stderrPipe.Some? || h.start.Some? then [] else Collect(c, env, v);
    var fromStart := if h.stdoutPipe.Some? || h.stderrPipe.Some? then [] else Then(start, rest);
    var fromErrPipe := if h.stdoutPipe.Some? then [] else Then(errPipe, fromStart);
    assert s == Then(outPipe, fromErrPipe);
    if FirstFailure(s) == |s| {
      assert h.stdoutPipe.None? && FirstFailure(fromErrPipe) == |fromErrPipe|;
      assert h.stderrPipe.None? && FirstFailure(fromStart) == |fromStart|;
      assert h.start.None? && FirstFailure(rest) == |rest|;
      CollectOrder(c, env, v);
      ActionsThen(start, rest);
      ActionsThen(errPipe, fromStart);
      ActionsThen(outPipe, fromErrPipe);
    }
  }

  /** A run of the bundle that fails nowhere made the runtime's root
      directory, marshalled the request, and started the runtime on it, in
      the order of RuntimeActions, in either variant. */
  lemma {:induction false} RuntimeOrder(c: Command, env: Env, v: Variant, req: Request)
    ensures var s := RuntimeSteps(c, env, v, req);
      FirstFailure(s) == |s| ==>
        env.marshalRequest(req).Success? && Actions(s) == RuntimeActions(env.marshalRequest(req).value)
  {
    var s := RuntimeSteps(c, env, v, req);
    var h := env.host;
    var mkdir := Step(MakeRuntimeRoot, Wrap(h.mkdirRuntimeRoot, errMkRuntimeRootdir), true);
    var reqJSON := env.marshalRequest(req);
    var marshal := Step(MarshalRequest, Wrap(ErrorOf(reqJSON), errMarshalRequest), v == Fixed);
    var rest := if h.mkdirRuntimeRoot.Some? || reqJSON.Failure? then [] else Start(c, env, v, reqJSON.value);
    var afterMkdir := if h.mkdirRuntimeRoot.Some? then [] else Then(marshal, rest);
    assert s == Then(mkdir, afterMkdir);
    if FirstFailure(s) == |s| {
      assert h.mkdirRuntimeRoot.None? && FirstFailure(afterMkdir) == |afterMkdir|;
      assert reqJSON.Success? && FirstFailure(rest) == |rest|;
      StartOrder(c, env, v, reqJSON.value);
      ActionsThen(marshal, rest);
      ActionsThen(mkdir, afterMkdir);
    }
  }

  /** What the runtime wrote to its standard output, bounded by
      MaxStdioBytes; it is only written back once every runtime step
      succeeded, reading it among them. */
  function Stdout(c: Command, env: Env): Bytes {
    var r := ReadStdio(env.host.stdout, c.maxStdioBytes);
    if r.Success? then r.value else []
  }

  /** Command.Run(args) in the given variant: decode the request, prepare
      the bundle from the image tarball, run it, clean it up and write the
      runtime's standard output. */
  function Execute(c: Command, imageTarBall: string, env: Env, v: Variant): (x: Exit)
    ensures Decode(env).Stop? ==> x == Exit(Decode(env).trace, Some(Decode(env).err), None)
  {
    var d := Decode(env);
    if d.Stop? then Exit(d.trace, Some(d.err), None)
    else
      Proceed(d.trace, PrepareSteps(c, imageTarBall, env), RuntimeSteps(c, env, v, d.value),
              env.host.cleanup, Stdout(c, env), env.host.writeStdout)
  }

  /** Command.Run(args) as written. */
  function Run(c: Command, imageTarBall: string, env: Env): Exit {
    Execute(c, imageTarBall, env, AsWritten)
  }

  /** Command.Run(args) with the bundle cleaned up when marshalling the
      request fails. */
  function RunFixed(c: Command, imageTarBall: string, env: Env): Exit {
    Execute(c, imageTarBall, env, Fixed)
  }

  /** A run that stops while decoding performs neither the bundle's
      creation nor its cleanup nor any runtime step. */
  lemma {:induction false} DecodeStops(env: Env)
    requires Decode(env).Stop?
    ensures Cleanups(Decode(env).trace) == 0
    ensures !BundleCreated(Decode(env).trace)
    ensures forall a :: AfterBundleAction(a) ==> Did(a, false) !in Decode(env).trace
  {
    var t := Decode(env).trace;
    DecodeKeepsOrder(env);
    forall j | 0 <= j < |t| ensures t[j].action != CleanupBundle {
      assert t[j] in t;
    }
    NoCleanups(t);
  }

  /** The first runtime step to fail returns without cleaning up exactly
      when it is the request's marshalling and the run is as written. */
  lemma {:induction false} LeaksExactlyOnMarshalFailure(c: Command, env: Env, v: Variant, req: Request)
    ensures var post := RuntimeSteps(c, env, v, req);
      Leaks(post) <==> FirstFailure(post) < |post| && post[FirstFailure(post)].action == MarshalRequest && v == AsWritten
  {
  }

  /** The bundle's Cleanup is called once when the bundle was created,
      unless marshalling the request failed; then, as written, never. */
  lemma {:induction false} RunCleansUpUnlessMarshalFails(c: Command, imageTarBall: string, env: Env, v: Variant)
    ensures var x := Execute(c, imageTarBall, env, v);
      Cleanups(x.trace) ==
        if BundleCreated(x.trace) && !(v == AsWritten && Did(MarshalRequest, false) in x.trace) then 1 else 0
  {
    var d := Decode(env);
    DecodeKeepsOrder(env);
    if d.Stop? {
      DecodeStops(env);
    } else {
      var pre := PrepareSteps(c, imageTarBall, env);
      var post := RuntimeSteps(c, env, v, d.value);
      var x := Execute(c, imageTarBall, env, v);
      ProceedCleansUpOnce(d.trace, pre, post, env.host.cleanup, Stdout(c, env), env.host.writeStdout);
      ProceedCreatesBundle(d.trace, pre, post, env.host.cleanup, Stdout(c, env), env.host.writeStdout);
      LeaksExactlyOnMarshalFailure(c, env, v, d.value);
      if FirstFailure(pre) == |pre| && Leaks(post) {
        ProceedRecordsFailure(d.trace, pre, post, env.host.cleanup, Stdout(c, env), env.host.writeStdout);
      }
      if Did(MarshalRequest, false) in x.trace {
        ProceedFailsAt(d.trace, pre, post, env.host.cleanup, Stdout(c, env), env.host.writeStdout, MarshalRequest);
      }
    }
  }

  /** As written, a failure to marshal the request leaks the bundle: it was
      created, and its Cleanup is never called. */
  lemma {:induction false} MarshalFailureLeaksBundle(c: Command, imageTarBall: string, env: Env)
    requires Did(MarshalRequest, false) in Run(c, imageTarBall, env).trace
    ensures BundleCreated(Run(c, imageTarBall, env).trace)
    ensures Cleanups(Run(c, imageTarBall, env).trace) == 0
  {
    var d := Decode(env);
    DecodeKeepsOrder(env);
    if d.Stop? {
      DecodeStops(env);
    } else {
      var pre := PrepareSteps(c, imageTarBall, env);
      var post := RuntimeSteps(c, env, AsWritten, d.value);
      PreludeAndPreparation(d.trace, pre);
      ProceedTrace(d.trace, pre, post, env.host.cleanup, Stdout(c, env), env.host.writeStdout);
      assert FirstFailure(pre) == |pre|;
      ProceedCreatesBundle(d.trace, pre, post, env.host.cleanup, Stdout(c, env), env.host.writeStdout);
    }
    RunCleansUpUnlessMarshalFails(c, imageTarBall, env, AsWritten);
  }

  /** With the cleanup in place, the bundle's Cleanup is called exactly once
      when the bundle was created, and never otherwise. */
  lemma {:induction false} FixedRunCleansUpOnce(c: Command, imageTarBall: string, env: Env)
    ensures var x := RunFixed(c, imageTarBall, env);
      Cleanups(x.trace) == if BundleCreated(x.trace) then 1 else 0
  {
    RunCleansUpUnlessMarshalFails(c, imageTarBall, env, Fixed);
  }

  /** No step follows a failed one, except the bundle's cleanup. */
  lemma {:induction false} RunAborts(c: Command, imageTarBall: string, env: Env, v: Variant)
    ensures AbortsAtFirstFailure(Execute(c, imageTarBall, env, v).trace)
  {
    var d := Decode(env);
    DecodeKeepsOrder(env);
    if d.Continue? {
      var pre := PrepareSteps(c, imageTarBall, env);
      var post := RuntimeSteps(c, env, v, d.value);
      ProceedAborts(d.trace, pre, post, env.host.cleanup, Stdout(c, env), env.host.writeStdout);
    }
  }

  /** The response is written only as the last step, after a successful
      wait and a successful cleanup, and it is the runtime's standard output
      bounded by MaxStdioBytes; a failed cleanup is the run's error and
      nothing is written. The run returns nil exactly when the write
      happened and succeeded. */
  lemma {:induction false} RunRespondsLast(c: Command, imageTarBall: string, env: Env, v: Variant)
    ensures var x := Execute(c, imageTarBall, env, v);
      && RespondsLast(x)
      && (x.response.Some? ==>
           && ReadStdio(env.host.stdout, c.maxStdioBytes).Success?
           && x.response.value == ReadStdio(env.host.stdout, c.maxStdioBytes).value)
      && (x.response.Some? ==> env.host.cleanup.None? && env.host.wait.None?)
      && (x.err.None? <==> x.response.Some? && env.host.writeStdout.None?)
  {
    var d := Decode(env);
    if d.Continue? {
      var pre := PrepareSteps(c, imageTarBall, env);
      var post := RuntimeSteps(c, env, v, d.value);
      ProceedRespondsLast(d.trace, pre, post, env.host.cleanup, Stdout(c, env), env.host.writeStdout);
      var x := Execute(c, imageTarBall, env, v);
      if x.response.Some? {
        assert post[|post| - 1].action == WaitRuntime;
      }
    }
  }

  /** When every step succeeded but the bundle's cleanup fails, that is
      the run's error and nothing is written. */
  lemma {:induction false} CleanupFailureIsReported(c: Command, imageTarBall: string, env: Env, v: Variant)
    requires Decode(env).Continue? && env.host.cleanup.Some?
    requires FirstFailure(PrepareSteps(c, imageTarBall, env)) == |PrepareSteps(c, imageTarBall, env)|
    requires FirstFailure(RuntimeSteps(c, env, v, Decode(env).value)) == |RuntimeSteps(c, env, v, Decode(env).value)|
    ensures Execute(c, imageTarBall, env, v).response.None?
    ensures Execute(c, imageTarBall, env, v).err == Some(Wrapped(errCleanupBundle, env.host.cleanup.value))
  {
  }

  /** A failed wait for the runtime is the run's error, wrapped with a
      message that embeds the runtime's captured standard error when the
      runtime exited with an error, and the plain message otherwise. */
  lemma {:induction false} RunWaitFails(c: Command, imageTarBall: string, env: Env, v: Variant)
    requires Did(WaitRuntime, false) in Execute(c, imageTarBall, env, v).trace
    ensures env.host.wait.Some? && ReadStdio(env.host.stderr, c.maxStdioBytes).Success?
    ensures Execute(c, imageTarBall, env, v).err ==
      Some(Wrapped(WaitMessage(env.host.wait.value, ReadStdio(env.host.stderr, c.maxStdioBytes).value), env.host.wait.value))
  {
    var d := Decode(env);
    DecodeKeepsOrder(env);
    if d.Stop? {
      DecodeStops(env);
    } else {
      var pre := PrepareSteps(c, imageTarBall, env);
      var post := RuntimeSteps(c, env, v, d.value);
      ProceedFailsAt(d.trace, pre, post, env.host.cleanup, Stdout(c, env), env.host.writeStdout, WaitRuntime);
    }
  }
}
