# A Dafny model of function-runtime-oci and xfn-oci

Crossplane's Composition Functions run as OCI containers. This repository
holds two generations of the runner:

- **xfn-oci**: a gRPC runner with a `spark` helper and a `run` CLI.
- **function-runtime-oci**: its successor.

In both generations, **spark** is the short-lived process that does one
run. It reads a request on standard input, prepares an OCI runtime bundle,
launches the runtime (crun) on it and collects its output. It then cleans
the bundle up and writes the runtime's response to standard output.

This project models the decision and sequencing logic of that code and
proves properties of it:

- **The two spark pipelines.** Every external step is an abstract, possibly
  failing action. Each run produces a trace of `Did(action, ok)` events.
  Lemmas about the trace say:
  - when the bundle is created and when it is cleaned up (exactly once
    after creation, except where the code leaks it);
  - that nothing follows a failed step except the cleanup;
  - that the response is written last, and only after a successful wait and
    a successful cleanup;
  - the order of the steps when none fails, and the context each failed
    step's error is wrapped in.
- **The pure configuration mappers.**
  - the pull-policy and credential mapping (`FromImagePullConfig`);
  - the conditional spec mutators (`FromRunFunctionConfig`,
    `FromResourcesConfig`), each checked against a reference definition;
  - `limitReaderIfNonZero` and the bounded reads of standard output and
    standard error;
  - the default timeout and the default image.
- **The container runner's construction.** Functional options are applied
  over defaults, and `ConfigFromRequest` decodes a request's input.
- **The small rules of the CLI commands.**
  - the capability-gated choice of the IDs mapped to root;
  - `copyChunks`, a method with loop invariants;
  - the xfn-oci `run` command: parse order, pull-config and keychain
    defaulting.

Files (one module each):

| file | module | models |
|---|---|---|
| base.dfy | Base | Option, bytes, int64, `string(b)` |
| errors.dfy | Errors | Go error values: wrapping, `errors.Is`, `errors.As` on `*exec.ExitError` |
| stdio.dfy | Stdio | `io.ReadAll`, `io.LimitReader`, `limitReaderIfNonZero` |
| copy_chunks.dfy | CopyChunks | `io.CopyN` and `copyChunks` |
| xfn_proto.dfy | XfnProto | the request and RunFunctionRequestConfig messages, with nil-safe getters |
| fn_config.dfy | FnConfig | the resources configuration of function-runtime-oci |
| pull_config.dfy | PullConfig | `FromImagePullConfig` |
| spec_options.dfy | SpecOptions | `FromRunFunctionConfig`, `FromResourcesConfig` |
| container.dfy | Container | `NewContainerRunner`, the `RunnerOption`s, `ConfigFromRequest` |
| launcher.dfy | Launcher | the UID/GID root-mapping choice |
| pipeline.dfy | Pipeline | the steps, traces and cleanup discipline shared by both spark commands |
| xfn_spark.dfy | XfnSpark | xfn-oci's `spark` `Command.Run` |
| fn_spark.dfy | FnSpark | function-runtime-oci's `spark` `Command.Run`, as written and with its cleanup fixed |
| xfn_run.dfy | XfnRun | xfn-oci's `run` `Command.Run`, as written and corrected |

Collaborators are inputs to the model. This covers the process's IDs and
capabilities, file system and runtime calls, the image puller and bundlers,
the overlay probe, marshalling, reference parsing and the keychain. Each
command's `Env` datatype carries their answers: either an outcome (`None`
for a nil error) or a total function.

## Model

| member | source | states |
|---|---|---|
| Stdio.ReadAll | cmd/xfn-oci/spark/spark.go:214-223 | io.ReadAll succeeds exactly when the stream ends in io.EOF, and then returns all of its bytes; any other error is returned as is |
| Stdio.LimitReader | cmd/xfn-oci/spark/spark.go:246 | the limited stream is a prefix of the source of length min(n, len) for positive n, empty for n <= 0; it ends in EOF once the limit is reached, otherwise with the source's own end |
| Stdio.LimitReaderIfNonZero | cmd/xfn-oci/spark/spark.go:242-247 | a limit of 0 returns the stream unchanged; otherwise the result is a prefix of the stream, of length min(limit, len) for positive limits and empty for negative ones |
| Stdio.ReadStdio | cmd/function-runtime-oci/spark/spark.go:158-167 | reading a bounded pipe succeeds iff the stream ended cleanly or the bound cut it short, fails with the stream's own error otherwise, and yields exactly the first Kept(limit, len) bytes |
| Stdio.ZeroLimitIsUnbounded | cmd/function-runtime-oci/spark/spark.go:187-192 | with limit 0 the bounded read is the plain io.ReadAll |
| Stdio.LimitIsMonotone | cmd/function-runtime-oci/spark/spark.go:187-192 | a positive limit bounds the bytes read, and a larger limit reads an extension of what a smaller one reads |
| CopyChunks.CopyN | cmd/function-runtime-oci/start/start.go:102 | one io.CopyN call copies at most n bytes, never past the source or the sink's capacity; it reports no error iff it copied exactly n; when it stops early its error is the source's terminating error if the sink could take what the source had, and the sink's write error otherwise |
| CopyChunks.CopyChunks | cmd/function-runtime-oci/start/start.go:99-111 | the bytes delivered are exactly the source's first `written` bytes; `written` is the sum of the per-call counts, each at most chunkSize; reaching the end of the source (EOF, matched through wrapping) is success with the whole source delivered; another error stops the copy and is returned with the count so far |
| PullConfig.FromImagePullConfig | cmd/xfn-oci/spark/spark.go:251-271 | ALWAYS maps to Always, NEVER to Never, IF_NOT_PRESENT and UNSPECIFIED to IfNotPresent, an unnamed number leaves the policy unchanged; credentials are set only when present and then equal the message's five fields; nothing else changes |
| PullConfig.FromImagePullConfigIdempotent | cmd/xfn-oci/spark/spark.go:251-271 | applying the option twice equals applying it once |
| PullConfig.RecognizedPolicyOverridesEverything | cmd/xfn-oci/spark/spark.go:253-260 | for every named policy the resulting pull policy is set and does not depend on the options it is applied to |
| SpecOptions.ApplyInOrder | cmd/xfn-oci/spark/spark.go:277-295 | reference semantics: the mutators attempted are a prefix of the plan, all of it on success, and a failure is the last attempted mutator's error wrapped with its stage message |
| SpecOptions.ApplyInOrderStops | cmd/xfn-oci/spark/spark.go:277-295 | the reference semantics stops at the first failing mutator: every mutator before it succeeded, and the error is that mutator's own error on the spec they built, wrapped with its stage message; on success the spec is what the last mutator returned (the input spec for an empty plan) |
| SpecOptions.Plan | cmd/xfn-oci/spark/spark.go:279-293 | the plan holds a CPU limit iff the CPU quantity is non-empty, a memory limit iff the memory quantity is non-empty, host networking iff requested, in the order CPU, memory, host network, and nothing else: its length is the number of settings requested |
| SpecOptions.FromRunFunctionConfig | cmd/xfn-oci/spark/spark.go:275-297 | attempts a prefix of the config's plan, the whole plan on success; a failure means every earlier mutator succeeded and is the failing mutator's own error wrapped with its stage message; on success the spec is the last mutator's result on the spec the earlier ones built |
| SpecOptions.FromResourcesConfig | cmd/function-runtime-oci/spark/spark.go:196-221 | a nil config attempts nothing and succeeds with the spec unchanged; otherwise it attempts a prefix of the resources plan, the whole plan on success, a failure means every earlier mutator succeeded and is the failing mutator's own error wrapped with its stage message, and on success the spec is the last mutator's result |
| SpecOptions.ThreeStepsFollowPlan | cmd/function-runtime-oci/spark/spark.go:201-219 | the three guarded mutator calls applied in sequence equal the reference semantics over the plan |
| SpecOptions.FromRunFunctionConfigFollowsPlan | cmd/xfn-oci/spark/spark.go:275-297 | FromRunFunctionConfig equals the reference semantics over the plan its config asks for |
| SpecOptions.FromResourcesConfigFollowsPlan | cmd/function-runtime-oci/spark/spark.go:196-221 | FromResourcesConfig equals the reference semantics over the plan its config asks for |
| Container.Apply | internal/container/container.go:70-113 | each option sets only its own fields; MapToRoot sets both IDs; WithDefaultImage("") changes nothing and a non-empty image sets it |
| Container.LastOptionWins | internal/container/container.go:125-127 | after applying options left to right, every field holds what the last option of its kind set, or its earlier value when no option sets it |
| Container.NewContainerRunner | internal/container/container.go:40-130 | with no options the runner caches in "/xfn", maps UID/GID 0, does not setuid and has no default image; otherwise each field is the last option's of its kind |
| Container.ConfigFromRequest | internal/container/container.go:142-157 | a request without input yields the empty config and no error; a marshalling or unmarshalling failure yields no config and the error wrapped with its own message; otherwise the decoded config |
| Launcher.ChooseRootMapping | cmd/function-runtime-oci/start/start.go:52-59 | setuid iff both capabilities are held; then the configured MapRootUID/MapRootGID map to root, otherwise the process's own UID and GID, never mixed |
| Pipeline.ChooseBundler | cmd/xfn-oci/spark/spark.go:128-134 | the overlay bundler is used iff the overlay probe succeeds and it can be created, the uncompressed bundler iff the probe fails, and a creation failure is the bundle-store error |
| Pipeline.Perform | cmd/xfn-oci/spark/spark.go:172-236 | performing steps records each step in order up to and including the first failure, and returns that step's error |
| Pipeline.Conclude | cmd/xfn-oci/spark/spark.go:177-239 | after the bundle exists: the first failing step's error is returned, else a cleanup failure wrapped as errCleanupBundle; a response is produced iff every step and the cleanup succeeded; nil is returned iff it was also written |
| Pipeline.ConcludeCleansUpOnce | cmd/xfn-oci/spark/spark.go:177-236 | after the bundle exists, Cleanup is called exactly once unless the first failing step returns without cleaning up, and then never |
| Pipeline.ConcludeAborts | cmd/xfn-oci/spark/spark.go:177-239 | after the bundle exists, nothing but the cleanup follows a failed step |
| Pipeline.ConcludeRespondsLast | cmd/xfn-oci/spark/spark.go:234-239 | a response is produced only when every runtime step succeeded; the trace is then those steps, a successful cleanup and the response write, in that order |
| Pipeline.ConcludePerformsInOrder | cmd/xfn-oci/spark/spark.go:177-232 | apart from the cleanup and the write, the events after the bundle exists are the runtime steps in order, each successful except the first failing one |
| Pipeline.Proceed | cmd/xfn-oci/spark/spark.go:128-239 | a failure while preparing the bundle returns that step's error and no response; otherwise the run continues as Conclude over the runtime steps |
| Pipeline.PreparationCreates | cmd/xfn-oci/spark/spark.go:128-175 | preparing the bundle records a successful bundle creation iff every preparation step succeeded |
| Pipeline.ProceedCreatesBundle | cmd/xfn-oci/spark/spark.go:172-175 | the bundle is created iff every step preparing it succeeded |
| Pipeline.PreparationCleansNothing | cmd/xfn-oci/spark/spark.go:88-175 | nothing is cleaned up before the bundle exists |
| Pipeline.ProceedCleansUpOnce | cmd/xfn-oci/spark/spark.go:172-236 | Cleanup is called exactly once when the bundle was created and the first failing runtime step cleans up, never otherwise |
| Pipeline.ProceedAborts | cmd/xfn-oci/spark/spark.go:88-239 | no step follows a failed one, except the bundle's cleanup |
| Pipeline.ProceedRespondsLast | cmd/xfn-oci/spark/spark.go:225-239 | a response is written only as the last event, after a successful wait and a successful cleanup |
| Pipeline.ProceedFailsAt | cmd/xfn-oci/spark/spark.go:177-232 | a runtime step recorded as failed is the first runtime step to fail, and its error is the run's error |
| Pipeline.ProceedEvents | cmd/xfn-oci/spark/spark.go:88-239 | every event of a run is a prelude event, one of its given steps, the cleanup or the response write |
| Pipeline.ProceedRecordsFailure | cmd/xfn-oci/spark/spark.go:177-232 | when the bundle was prepared, the first failing runtime step appears in the trace as failed |
| XfnSpark.Timeout | cmd/xfn-oci/spark/spark.go:112-115 | a zero timeout becomes the 25 s default; any other timeout is used unchanged; the result is never zero |
| XfnSpark.ImageFor | cmd/xfn-oci/spark/spark.go:143-146 | an empty image becomes the default image; a non-empty one is kept |
| XfnSpark.Decode | cmd/xfn-oci/spark/spark.go:88-115 | the decoding steps happen in order and stop at the first failure; a read failure stops wrapped as "failed to read request", an unmarshal failure as "failed to unmarshal request"; a request without input stops with "no input provided" after reading and unmarshalling, and only then; for a request with input the config errors are wrapped as DecodeConfig states; on success the config is ConfigFromRequest's and the timeout is defaulted |
| XfnSpark.PrepareSteps | cmd/xfn-oci/spark/spark.go:128-175 | the preparation begins with the bundler choice, parses only the resolved image, parses the CA bundle only when a path is configured, ends with the bundle creation, and cleans up nothing; each failed step's error is wrapped in its stage's context (bundle store, digest store, reference, CA bundle, pull, bundle) |
| XfnSpark.PullOrder | cmd/xfn-oci/spark/spark.go:153-175 | when no step fails, the CA bundle is parsed (only if configured), then the image pulled, then the bundle created |
| XfnSpark.FetchOrder | cmd/xfn-oci/spark/spark.go:165-175 | when no step fails, the image is pulled and then the bundle created |
| XfnSpark.ResolveOrder | cmd/xfn-oci/spark/spark.go:148-175 | when no step fails, the reference parsed successfully and is parsed before the pull, which uses it |
| XfnSpark.PrepareOrder | cmd/xfn-oci/spark/spark.go:128-175 | a preparation that fails nowhere had a bundler and a digest store, and performed bundler choice, digest store, reference parse, CA bundle (if configured), pull and bundle creation, in that order |
| XfnSpark.DecodeConfig | cmd/xfn-oci/spark/spark.go:103-115 | marshalling and unmarshalling the input happen in order; a marshalling failure is wrapped as "failed to marshal input to JSON", an unmarshalling failure with a message quoting the JSON it could not read |
| Errors.AsExitError | cmd/xfn-oci/spark/spark.go:226-229 | the exit error found is on the error's wrap chain, and one is found whenever an exit error is on the chain |
| Errors.SetExitStderr | cmd/xfn-oci/spark/spark.go:226-229 | an error without an exit error on its chain is unchanged; otherwise the exit error found on the chain carries the captured standard error, and the message is unchanged |
| XfnSpark.WaitError | cmd/xfn-oci/spark/spark.go:225-232 | a failed wait is wrapped as an OCI runtime error with an unchanged message, and an exit error on its chain carries the captured standard error |
| XfnSpark.RuntimeSteps | cmd/xfn-oci/spark/spark.go:177-232 | every runtime step cleans up the bundle when it fails, the steps end with the wait, and when all succeed standard output was read successfully; each failed step's error is wrapped in its stage's context: errMkRuntimeRootdir, errMarshalRequest, and the OCI runtime error for the pipes, the start, the reads and the wait |
| XfnSpark.CollectOrder | cmd/xfn-oci/spark/spark.go:214-232 | when no step fails, standard output is read, then standard error, then the runtime waited for |
| XfnSpark.StartOrder | cmd/xfn-oci/spark/spark.go:198-232 | when no step fails, the standard output pipe, the standard error pipe and the start on the marshalled request come before the reads and the wait |
| XfnSpark.RuntimeOrder | cmd/xfn-oci/spark/spark.go:177-232 | a run of the bundle that fails nowhere marshalled the request and performed mkdir, marshal, stdout pipe, stderr pipe, start on that request, read stdout, read stderr and wait, in that order |
| XfnSpark.Run | cmd/xfn-oci/spark/spark.go:98-101 | a request without input returns "no input provided" after reading and unmarshalling it, before any bundler, puller or bundle exists |
| XfnSpark.DecodeStops | cmd/xfn-oci/spark/spark.go:88-110 | a run that stops while decoding created no bundle, cleaned up nothing and failed no runtime step |
| XfnSpark.RunCleansUpOnce | cmd/xfn-oci/spark/spark.go:172-236 | Cleanup is called exactly once when the bundle was created and never otherwise, on every path |
| XfnSpark.RunAborts | cmd/xfn-oci/spark/spark.go:88-239 | no step follows a failed one, except the bundle's cleanup |
| XfnSpark.RunRespondsLast | cmd/xfn-oci/spark/spark.go:214-239 | standard output is written last, only after a successful wait and cleanup, and it is what the bounded read returned; the run returns nil iff that write succeeded |
| XfnSpark.RunWaitFails | cmd/xfn-oci/spark/spark.go:219-232 | a failed wait is the run's error, wrapped as a runtime error with the captured standard error attached |
| XfnSpark.RunResolvesImage | cmd/xfn-oci/spark/spark.go:143-160 | the only reference parsed is the config's image or the default image, and the CA bundle is parsed only when a path is configured |
| FnSpark.Execute | cmd/function-runtime-oci/spark/spark.go:77-86 | a run whose request cannot be read or unmarshalled ends with the decoding trace and that step's error, before any bundler exists, and writes nothing |
| FnSpark.Decode | cmd/function-runtime-oci/spark/spark.go:78-86 | reading and unmarshalling happen in order, stop at the first failure, a read failure wrapped as "failed to read request" and an unmarshal failure as "failed to unmarshal request", and continue exactly when both succeed |
| FnSpark.PrepareSteps | cmd/function-runtime-oci/spark/spark.go:97-119 | the preparation begins with the bundler choice, opens the tarball, ends with the bundle creation and cleans up nothing; each failed step's error is wrapped in its stage's context (bundle store, tarball, bundle) |
| FnSpark.PrepareOrder | cmd/function-runtime-oci/spark/spark.go:97-119 | a preparation that fails nowhere had a bundler and an image, and performed bundler choice, tarball and bundle creation, in that order |
| FnSpark.WaitMessage | cmd/function-runtime-oci/spark/spark.go:169-176 | an exit error on the wait error's chain puts the captured standard error into the message; other wait errors use the plain message |
| FnSpark.RuntimeSteps | cmd/function-runtime-oci/spark/spark.go:121-176 | every runtime step except the request's marshalling cleans up when it fails (the marshalling too once fixed), and the steps end with the wait; each failed step other than the wait has its error wrapped in its own context, from errMkRuntimeRootdir to "cannot read stderr" |
| FnSpark.CollectOrder | cmd/function-runtime-oci/spark/spark.go:158-177 | when no step fails, standard output is read, then standard error, then the command waited for |
| FnSpark.StartOrder | cmd/function-runtime-oci/spark/spark.go:141-177 | when no step fails, the two pipes and the start on the marshalled request come before the reads and the wait |
| FnSpark.RuntimeOrder | cmd/function-runtime-oci/spark/spark.go:121-177 | a run of the bundle that fails nowhere, in either variant, marshalled the request and performed mkdir, marshal, both pipes, start, both reads and wait, in that order |
| FnSpark.LeaksExactlyOnMarshalFailure | cmd/function-runtime-oci/spark/spark.go:135-138 | the first runtime step to fail returns without cleanup iff it is the request's marshalling, in the code as written |
| FnSpark.RunCleansUpUnlessMarshalFails | cmd/function-runtime-oci/spark/spark.go:116-181 | Cleanup is called once when the bundle was created, except, as written, after a marshalling failure, and never when no bundle exists |
| FnSpark.MarshalFailureLeaksBundle | cmd/function-runtime-oci/spark/spark.go:135-138 | as written, a marshalling failure happens after the bundle was created and Cleanup is never called |
| FnSpark.FixedRunCleansUpOnce | cmd/function-runtime-oci/spark/spark.go:116-181 | with the missing cleanup added, Cleanup is called exactly once when the bundle was created and never otherwise |
| FnSpark.RunAborts | cmd/function-runtime-oci/spark/spark.go:77-185 | no step follows a failed one, except the bundle's cleanup |
| FnSpark.RunRespondsLast | cmd/function-runtime-oci/spark/spark.go:158-184 | standard output is written last, only after a successful wait and cleanup; the run returns nil iff that write succeeded |
| FnSpark.CleanupFailureIsReported | cmd/function-runtime-oci/spark/spark.go:179-181 | when everything else succeeded, a cleanup failure is returned as errCleanupBundle and nothing is written |
| FnSpark.RunWaitFails | cmd/function-runtime-oci/spark/spark.go:169-176 | a failed wait is the run's error, wrapped with the message that embeds standard error for an exit error |
| XfnRun.WithPullConfig | cmd/xfn-oci/run/run.go:94-96 | a missing ImagePullConfig becomes an empty one; a present one and the rest of the config are kept |
| XfnRun.ResolveAuth | cmd/xfn-oci/run/run.go:97-120 | present credentials are kept and the keychain is not consulted; otherwise a resolve or authorization failure is returned with its own message, and success stores the keychain's five fields, changing nothing else |
| XfnRun.ResolvePullConfig | cmd/xfn-oci/run/run.go:94-120 | whatever succeeds has an ImagePullConfig with credentials and keeps the image and run configuration; a config with credentials comes back unchanged; without credentials it succeeds iff the keychain resolves and authorizes, then stores the keychain's credentials field for field and keeps the pull policy (unspecified when there was no ImagePullConfig), and otherwise fails with the keychain's or the authorization's error wrapped with its own message |
| XfnRun.KeychainOnlyWithoutAuth | cmd/xfn-oci/run/run.go:97 | when the request carries credentials, the result does not depend on the keychain |
| XfnRun.ResolvePullConfigIdempotent | cmd/xfn-oci/run/run.go:94-120 | defaulting the pull config twice is defaulting it once |
| XfnRun.RunnerFor | cmd/xfn-oci/run/run.go:68-121 | the runner setuids and maps MapRootUID/MapRootGID iff both capabilities are held, otherwise the process's IDs; it caches in the cleaned cache directory, uses the given registry, and has no default image |
| XfnRun.ConfigFor | cmd/xfn-oci/run/run.go:86-93 | a request with input yields ConfigFromRequest's result; without input, as written no config at all, corrected the empty config |
| XfnRun.Execute | cmd/xfn-oci/run/run.go:76-128 | an unparseable image returns errParseImage first; then unparseable input returns errParseInput, echoing the input, before any runner exists; a failure to read the config or to resolve its pull credentials is returned unwrapped with no runner, and a config decoded as nothing panics; once credentials resolve, the runner is the configured one and receives the request forwarded with the resolved config; the input is echoed only when the image parsed and the input failed to unmarshal; a runner invoked is the configured one; a written response is what the runner returned and the write error is wrapped; a runner failure is errRunFunction |
| XfnRun.NilInputPanics | cmd/xfn-oci/run/run.go:86-94 | as written, a well-formed request without input panics on the nil config |
| XfnRun.FixedNeverPanics | cmd/xfn-oci/run/run.go:86-94 | corrected, the command always returns |
| XfnRun.CredentialsNotForwarded | cmd/xfn-oci/run/run.go:112-122 | as written, the runner receives exactly the parsed request |
| XfnRun.KeychainCredentialsLost | cmd/xfn-oci/run/run.go:97-122 | as written, a request without credentials run with a working keychain reaches the runner still decoding to a config without credentials |
| XfnRun.FixedForwardsCredentials | cmd/xfn-oci/run/run.go:97-122 | corrected, when the config encoding round-trips, the runner's request decodes to a config with the keychain's credentials and the original image and run configuration |
| XfnRun.FixedAgreesWithCredentials | cmd/xfn-oci/run/run.go:76-128 | for a request that has input and carries credentials, the corrected command behaves exactly as the original, forwarding the request unchanged |

## Left out

- Process spawning, stdio pipes and the OCI runtime are not modelled. Each
  is one abstract step with a given outcome. Standard output is read fully
  before standard error, as the code does.
- Context deadlines and cancellation are not modelled. Only the choice of
  the timeout value is.
- The spec mutators are opaque fallible functions, and their quantity
  parsing is left out.
- The overlay and uncompressed bundlers, the digest store, the caching
  puller and the overlay probe are opaque outcomes.
- The bundle step's outcome is an input. It is not linked to what the spec
  option computes.
- Protobuf, JSON and YAML marshalling, `name.ParseReference`,
  `tarball.ImageFromPath`, gzip, `filepath.Clean`, the keychain and the
  capability probes are opaque inputs.
- The run ID (uuid), logging and `defer` bookkeeping are not modelled.
- The Runner's `RunFunction` is not part of this model. The run command's
  model treats it as an opaque function of the runner and the request.
- Left out as network plumbing:
  - the gRPC server and listener;
  - cmd/xfn-oci/start/start.go;
  - cmd/xfn-oci/main.go;
  - cmd/function-runtime-oci/run/run.go (glue that repeats the root-mapping
    rule);
  - the rest of the function-runtime-oci start command outside copyChunks
    and the root mapping.
- CopyChunks.CopyChunks: requires chunkSize > 0. For chunkSize <= 0 the Go
  loop never ends (io.CopyN returns 0 and no error), and the only caller
  passes 1 MiB.
- CopyChunks.CopyChunks: the int64 byte counter is modelled as unbounded.
  It could only wrap for a source longer than 2^63 - 1 bytes.
- XfnRun.Execute: the flags Timeout, ImagePullPolicy and NetworkPolicy are
  part of Command but not of the contract, because Run never reads them.
- XfnRun.FixedForwardsCredentials: the corrected command re-encodes the
  config into the request with an opaque conversion. The lemma requires that
  this conversion round-trips through ConfigFromRequest.

## Findings

| source | as written | input that shows it | evidently intended | confidence | as-written member | corrected member |
|---|---|---|---|---|---|---|
| cmd/function-runtime-oci/spark/spark.go:135-138 | when protojson.Marshal of the request fails after the bundle was created, Run returns without calling b.Cleanup() | any run whose bundle is created and whose request marshalling fails | clean up the bundle on this path as on every other path after line 119 | not executed | FnSpark.MarshalFailureLeaksBundle | FnSpark.FixedRunCleansUpOnce |
| cmd/xfn-oci/run/run.go:86-94 | cfg stays nil when the request has no input, and line 94 dereferences it | a well-formed request JSON with no `input` field | treat a request without input as the empty config, as ConfigFromRequest already does | not executed | XfnRun.NilInputPanics | XfnRun.FixedNeverPanics |
| cmd/xfn-oci/run/run.go:97-122 | keychain credentials are stored in the local cfg, but the runner is given the original `&req`, so they are lost | a request whose config has no imagePullConfig.auth, with the keychain holding credentials for the image's registry | forward the resolved config (with credentials) to the runner whenever defaulting changed it, which is the point of resolving them in the caller's environment | not executed | XfnRun.KeychainCredentialsLost | XfnRun.FixedForwardsCredentials |
