/** What the two generations of the spark command share: the record of the
    external steps a run performs, the bundler choice, and the host-side
    effects after the bundle exists. Every external step is an input that
    either succeeds or fails; a run is a deterministic function of them. */
module Pipeline {
  import opened Base
  import opened Errors
  import opened Stdio

  const errReadRequest := "cannot read request from stdin"
  const errUnmarshalRequest := "cannot unmarshal request data from stdin"
  const errNewBundleStore := "cannot create OCI runtime bundle store"
  const errBundleFn := "cannot create OCI runtime bundle"
  const errMkRuntimeRootdir := "cannot make OCI runtime cache"
  const errCleanupBundle := "cannot cleanup OCI runtime bundle"
  const errWriteResponse := "cannot write response data to stdout"

  /** The two bundle stores: overlay-backed, or extracting every layer. */
  datatype BundlerKind = Overlay | Uncompressed

  /** Opaque values produced by collaborators outside the model. */
  datatype Reference = Reference(name: string)
  datatype Image = Image(digest: string)
  datatype Bundle = Bundle(path: string)

  /** The external steps of a run. */
  datatype Action =
    | ReadRequest
    | UnmarshalRequest
    | MarshalInput
    | UnmarshalConfig
    | NewBundler(kind: BundlerKind)
    | NewDigestStore
    | ParseReference(image: string)
    | ParseCABundle
    | PullImage(ref: Reference)
    | OpenTarball
    | CreateBundle
    | MakeRuntimeRoot
    | MarshalRequest
    | StdoutPipe
    | StderrPipe
    | StartRuntime(stdin: Bytes)
    | ReadStdout
    | ReadStderr
    | WaitRuntime
    | CleanupBundle
    | WriteResponse(response: Bytes)

  /** A step that was performed, and whether it succeeded. */
  datatype Event = Did(action: Action, ok: bool)

  /** How run ended: its steps in order, its error (None: it returned nil),
      and the bytes it handed to standard output, if it got that far. */
  datatype Exit = Exit(trace: seq<Event>, err: Outcome, response: Option<Bytes>)

  /** A stage of the run before the bundle exists: it continues with a value
      or stops with an error. */
  datatype Phase<T> = Continue(trace: seq<Event>, value: T) | Stop(trace: seq<Event>, err: Error)

  /** How many times the bundle's Cleanup was called. */
  function Cleanups(t: seq<Event>): nat {
    if |t| == 0 then 0 else (if t[0].action == CleanupBundle then 1 else 0) + Cleanups(t[1..])
  }

  /** Cleanups add up over a trace's parts. */
  lemma {:induction false} CleanupsAdd(a: seq<Event>, b: seq<Event>)
    ensures Cleanups(a + b) == Cleanups(a) + Cleanups(b)
  {
    if |a| == 0 {
      assert a + b == b;
    } else {
      assert (a + b)[1..] == a[1..] + b;
      CleanupsAdd(a[1..], b);
    }
  }

  /** A trace without a cleanup event performs no cleanup. */
  lemma {:induction false} NoCleanups(t: seq<Event>)
    requires forall j :: 0 <= j < |t| ==> t[j].action != CleanupBundle
    ensures Cleanups(t) == 0
  {
    if |t| > 0 {
      NoCleanups(t[1..]);
    }
  }

  predicate BundleCreated(t: seq<Event>) {
    Did(CreateBundle, true) in t
  }

  /** Nothing but the bundle's cleanup follows a failed step. */
  predicate AbortsAtFirstFailure(t: seq<Event>) {
    forall i, j :: 0 <= i < j < |t| && !t[i].ok ==> t[j].action == CleanupBundle
  }

  /** The steps that read and decode the request. */
  predicate Decoding(a: Action) {
    a.ReadRequest? || a.UnmarshalRequest? || a.MarshalInput? || a.UnmarshalConfig?
  }

  /** A trace of decoding steps only neither creates a bundle, nor cleans
      one up, nor fails a step of the runtime. */
  lemma {:induction false} DecodingOnly(t: seq<Event>)
    requires forall e :: e in t ==> Decoding(e.action)
    ensures Cleanups(t) == 0
    ensures !BundleCreated(t)
    ensures forall a :: AfterBundleAction(a) ==> Did(a, false) !in t
  {
    forall j | 0 <= j < |t| ensures t[j].action != CleanupBundle {
      assert t[j] in t;
    }
    NoCleanups(t);
  }

  /** The steps before a bundle exists. */
  predicate BeforeBundle(a: Action) {
    Decoding(a) || a.NewBundler? || a.NewDigestStore? || a.ParseReference? || a.ParseCABundle? ||
    a.PullImage? || a.OpenTarball?
  }

  /** A phase before bundling: it performs only pre-bundle steps, all of
      which succeed if it continues, and none after a failure. */
  predicate PhaseBeforeBundle<T>(p: Phase<T>) {
    && (forall e :: e in p.trace ==> BeforeBundle(e.action))
    && (p.Continue? ==> forall e :: e in p.trace ==> e.ok)
    && AbortsAtFirstFailure(p.trace)
  }

  /** A trace of `actions` performed in order, none after a failure: all
      of them, each successful, when the phase continues. */
  predicate Follows(t: seq<Event>, actions: seq<Action>, continued: bool) {
    && |t| <= |actions|
    && (continued ==> |t| == |actions|)
    && (forall i :: 0 <= i < |t| ==> t[i].action == actions[i])
    && (forall i :: 0 <= i < |t| && (continued || i < |t| - 1) ==> t[i].ok)
  }

  /** A phase performing decoding steps in order keeps to the rules of the
      steps before the bundle. */
  lemma {:induction false} FollowsBeforeBundle<T>(p: Phase<T>, actions: seq<Action>)
    requires Follows(p.trace, actions, p.Continue?)
    requires forall i :: 0 <= i < |actions| ==> Decoding(actions[i])
    ensures PhaseBeforeBundle(p)
    ensures forall e :: e in p.trace ==> Decoding(e.action)
  {
    var t := p.trace;
    forall e | e in t ensures Decoding(e.action) && (p.Continue? ==> e.ok) {
      var i :| 0 <= i < |t| && t[i] == e;
    }
  }

  /** The overlay bundler is preferred: it is used when the overlay probe
      succeeds for the cache directory, and its construction can fail; the
      uncompressed bundler is used otherwise and cannot fail. */
  function ChooseBundler(overlaySupported: bool, newCachingBundler: Outcome): (r: Result<BundlerKind>)
    ensures r == Success(Overlay) <==> overlaySupported && newCachingBundler.None?
    ensures r == Success(Uncompressed) <==> !overlaySupported
    ensures r.Failure? ==> r.error == Wrapped(errNewBundleStore, newCachingBundler.value)
  {
    if !overlaySupported then Success(Uncompressed)
    else if newCachingBundler.Some? then Failure(Wrapped(errNewBundleStore, newCachingBundler.value))
    else Success(Overlay)
  }

  /** The event the bundler choice records. */
  function BundlerEvent(overlaySupported: bool, r: Result<BundlerKind>): Event {
    Did(NewBundler(if overlaySupported then Overlay else Uncompressed), r.Success?)
  }

  /** The host's answers to the steps after bundling: making the runtime's
      root directory, the runtime's pipes and start, what it writes to its
      standard output and standard error, how it exits, the bundle's
      cleanup, and writing the response. */
  datatype Host = Host(
    mkdirRuntimeRoot: Outcome,
    stdoutPipe: Outcome,
    stderrPipe: Outcome,
    start: Outcome,
    stdout: Stream,
    stderr: Stream,
    wait: Outcome,
    cleanup: Outcome,
    writeStdout: Outcome)

  /** The run ends by writing its response: the runtime was waited for
      successfully, then the bundle cleaned up successfully, then the
      response written, as the last three steps. */
  predicate RespondsLast(x: Exit) {
    x.response.Some? ==>
      && |x.trace| >= 3
      && x.trace[|x.trace| - 3] == Did(WaitRuntime, true)
      && x.trace[|x.trace| - 2] == Did(CleanupBundle, true)
      && x.trace[|x.trace| - 1].action == WriteResponse(x.response.value)
  }

  /** A step of a run: what it does, the error the run returns when it
      fails (None: it succeeds), and whether the run cleans the bundle up
      before returning that error. */
  datatype Step = Step(action: Action, failure: Outcome, cleansUp: bool)

  /** The position of the first step that fails, |steps| when none does. */
  function FirstFailure(steps: seq<Step>): (k: nat)
    ensures k <= |steps|
    ensures forall i :: 0 <= i < k ==> steps[i].failure.None?
    ensures k < |steps| ==> steps[k].failure.Some?
  {
    if |steps| == 0 || steps[0].failure.Some? then 0 else 1 + FirstFailure(steps[1..])
  }

  /** A step, followed by `rest` only if it succeeds: how the run's code
      returns at the first error. */
  function Then(st: Step, rest: seq<Step>): (s: seq<Step>)
    ensures |s| > 0 && s[0] == st
    ensures FirstFailure(s) == if st.failure.Some? then 0 else 1 + FirstFailure(rest)
    ensures st.failure.None? ==> |s| == 1 + |rest| && forall i :: 0 < i < |s| ==> s[i] == rest[i - 1]
    ensures st.failure.Some? ==> |s| == 1
  {
    var s := [st] + if st.failure.Some? then [] else rest;
    assert s[1..] == if st.failure.Some? then [] else rest;
    s
  }

  /** The actions of the steps, in order. */
  function Actions(steps: seq<Step>): (a: seq<Action>)
    ensures |a| == |steps| && forall i :: 0 <= i < |steps| ==> a[i] == steps[i].action
  {
    seq(|steps|, i requires 0 <= i < |steps| => steps[i].action)
  }

  /** A single step performs its own action. */
  lemma {:induction false} ActionsOne(st: Step)
    ensures Actions([st]) == [st.action]
  {
  }

  /** A successful step is performed before the actions of the rest. */
  lemma {:induction false} ActionsThen(st: Step, rest: seq<Step>)
    ensures st.failure.None? ==> Actions(Then(st, rest)) == [st.action] + Actions(rest)
  {
    if st.failure.None? {
      var s := Then(st, rest);
      assert s == [st] + rest;
      var a, b := Actions(s), [st.action] + Actions(rest);
      assert |a| == |b|;
      forall i | 0 <= i < |a| ensures a[i] == b[i] {
        if i > 0 {
          assert s[i] == rest[i - 1];
        }
      }
    }
  }

  /** What performing steps in order did: the trace of the steps performed,
      and the error of the step it stopped at (None: none failed). */
  datatype Ran = Ran(trace: seq<Event>, failure: Outcome)

  /** Performs the steps in order, stopping at the first that fails with
      that step's error. The trace holds exactly the steps performed: all
      successful except the failing one, which is the last. */
  function Perform(steps: seq<Step>): (p: Ran)
    ensures p.failure.Some? <==> FirstFailure(steps) < |steps|
    ensures p.failure.Some? ==> p.failure == steps[FirstFailure(steps)].failure
    ensures |p.trace| == if p.failure.Some? then FirstFailure(steps) + 1 else |steps|
    ensures forall j :: 0 <= j < |p.trace| ==> p.trace[j] == Did(steps[j].action, j != FirstFailure(steps))
  {
    if |steps| == 0 then Ran([], None)
    else if steps[0].failure.Some? then Ran([Did(steps[0].action, false)], steps[0].failure)
    else
      var p := Perform(steps[1..]);
      p.(trace := [Did(steps[0].action, true)] + p.trace)
  }

  /** A phase made of steps keeps to the order of its steps: it stops at the
      first failure, and continues only when every step succeeded. */
  lemma {:induction false} PerformAborts(steps: seq<Step>)
    ensures AbortsAtFirstFailure(Perform(steps).trace)
    ensures Perform(steps).failure.None? ==> forall e :: e in Perform(steps).trace ==> e.ok
  {
    var p := Perform(steps);
    var k := FirstFailure(steps);
    forall i | 0 <= i < |p.trace| && (i < |p.trace| - 1 || p.failure.None?) ensures p.trace[i].ok {
      assert p.trace[i] == Did(steps[i].action, i != k);
    }
  }

  /** Steps that the bundle's cleanup and the response write are not. */
  predicate Performable(steps: seq<Step>) {
    forall i :: 0 <= i < |steps| ==> steps[i].action != CleanupBundle && !steps[i].action.WriteResponse?
  }

  /** The first failing step returns without cleaning up the bundle. */
  predicate Leaks(steps: seq<Step>) {
    FirstFailure(steps) < |steps| && !steps[FirstFailure(steps)].cleansUp
  }

  /** The part of a run after its bundle exists: performs the steps; on the
      first failure cleans up the bundle (if that step does), ignoring the
      cleanup's own error, and returns the step's error. When every step
      succeeds, cleans up the bundle, failing if that fails, and then writes
      the response, failing if that fails. */
  function Conclude(steps: seq<Step>, cleanup: Outcome, response: Bytes, write: Outcome): (x: Exit)
    ensures FirstFailure(steps) < |steps| ==> x.err == steps[FirstFailure(steps)].failure
    ensures FirstFailure(steps) == |steps| && cleanup.Some? ==> x.err == Some(Wrapped(errCleanupBundle, cleanup.value))
    ensures x.response.Some? <==> FirstFailure(steps) == |steps| && cleanup.None?
    ensures x.response.Some? ==> x.response.value == response
    ensures x.err.None? <==> x.response.Some? && write.None?
  {
    var p := Perform(steps);
    if p.failure.Some? then
      var cleaned := if steps[FirstFailure(steps)].cleansUp then [Did(CleanupBundle, cleanup.None?)] else [];
      Exit(p.trace + cleaned, p.failure, None)
    else if cleanup.Some? then
      Exit(p.trace + [Did(CleanupBundle, false)], Some(Wrapped(errCleanupBundle, cleanup.value)), None)
    else
      Exit(p.trace + [Did(CleanupBundle, true), Did(WriteResponse(response), write.None?)], Wrap(write, errWriteResponse), Some(response))
  }

  /** The bundle is cleaned up exactly once, unless the first failing step
      is one that returns without cleaning up; then never. */
  lemma {:induction false} ConcludeCleansUpOnce(steps: seq<Step>, cleanup: Outcome, response: Bytes, write: Outcome)
    requires Performable(steps)
    ensures Cleanups(Conclude(steps, cleanup, response, write).trace) == if Leaks(steps) then 0 else 1
  {
    var p := Perform(steps).trace;
    var t := Conclude(steps, cleanup, response, write).trace;
    var rest := t[|p|..];
    NoCleanupPerformed(steps);
    assert t == p + rest;
    CleanupsAdd(p, rest);
    if 0 < |rest| {
      assert rest[0].action == CleanupBundle;
      assert Cleanups(rest[1..]) == 0;
    }
  }

  /** Nothing but the bundle's cleanup follows a failed step after the
      bundle exists. */
  lemma {:induction false} ConcludeAborts(steps: seq<Step>, cleanup: Outcome, response: Bytes, write: Outcome)
    ensures AbortsAtFirstFailure(Conclude(steps, cleanup, response, write).trace)
  {
    PerformAborts(steps);
    var t := Conclude(steps, cleanup, response, write).trace;
    var p := Perform(steps);
    forall i | 0 <= i < |p.trace| ensures t[i] == p.trace[i] {}
  }

  /** Up to the cleanup and the response write, the trace after the bundle
      exists is the steps performed, in order, up to the first failure. */
  lemma {:induction false} ConcludePerformsInOrder(steps: seq<Step>, cleanup: Outcome, response: Bytes, write: Outcome)
    requires Performable(steps)
    ensures var t := Conclude(steps, cleanup, response, write).trace;
      forall j :: 0 <= j < |t| && t[j].action != CleanupBundle && !t[j].action.WriteResponse? ==>
        j < |steps| && t[j] == Did(steps[j].action, j != FirstFailure(steps))
  {
    var t := Conclude(steps, cleanup, response, write).trace;
    var p := Perform(steps);
    forall j | 0 <= j < |t| && t[j].action != CleanupBundle && !t[j].action.WriteResponse?
      ensures j < |p.trace| && t[j] == p.trace[j]
    {}
  }

  /** A response is written only after every step succeeded and the bundle
      was cleaned up successfully, as the run's last two events. */
  lemma {:induction false} ConcludeRespondsLast(steps: seq<Step>, cleanup: Outcome, response: Bytes, write: Outcome)
    ensures var x := Conclude(steps, cleanup, response, write);
      x.response.Some? ==>
        && |x.trace| == |steps| + 2
        && (forall j :: 0 <= j < |steps| ==> x.trace[j] == Did(steps[j].action, true))
        && x.trace[|steps|] == Did(CleanupBundle, true)
        && x.trace[|steps| + 1] == Did(WriteResponse(response), write.None?)
  {
  }

  /** Performing steps that are not the cleanup never cleans up. */
  lemma {:induction false} NoCleanupPerformed(steps: seq<Step>)
    requires Performable(steps)
    ensures Cleanups(Perform(steps).trace) == 0
  {
    var t := Perform(steps).trace;
    forall j | 0 <= j < |t| ensures t[j].action != CleanupBundle {
      assert t[j] == Did(steps[j].action, j != FirstFailure(steps));
    }
    NoCleanups(t);
  }

  /** Prefixing successful steps keeps a trace aborting at its first failure. */
  lemma {:induction false} AbortsAfterSuccesses(a: seq<Event>, b: seq<Event>)
    requires forall e :: e in a ==> e.ok
    requires AbortsAtFirstFailure(b)
    ensures AbortsAtFirstFailure(a + b)
  {
    var t := a + b;
    forall i | 0 <= i < |a| ensures t[i].ok {
      assert t[i] == a[i];
    }
  }

  /** The steps of a run once its runtime may be launched. */
  predicate AfterBundleAction(a: Action) {
    a.MakeRuntimeRoot? || a.MarshalRequest? || a.StdoutPipe? || a.StderrPipe? || a.StartRuntime? ||
    a.ReadStdout? || a.ReadStderr? || a.WaitRuntime?
  }

  /** Steps that prepare a bundle: steps before a bundle exists, ending with
      the bundle's creation unless one of them fails first (the steps after
      a failure are never taken, so a list may end at the failing step). */
  predicate Bundles(pre: seq<Step>) {
    && |pre| > 0
    && (forall i :: 0 <= i < |pre| - 1 ==> BeforeBundle(pre[i].action))
    && (BeforeBundle(pre[|pre| - 1].action) || pre[|pre| - 1].action == CreateBundle)
    && (FirstFailure(pre) == |pre| ==> pre[|pre| - 1].action == CreateBundle)
  }

  /** Steps that run the bundle: runtime steps, ending with the wait for the
      runtime unless one of them fails first. */
  predicate Launches(post: seq<Step>) {
    && |post| > 0
    && (forall i :: 0 <= i < |post| ==> AfterBundleAction(post[i].action))
    && (FirstFailure(post) == |post| ==> post[|post| - 1].action == WaitRuntime)
  }

  /** A step before the bundle exists keeps a list preparing it. */
  lemma {:induction false} BundlesThen(st: Step, rest: seq<Step>)
    requires BeforeBundle(st.action)
    requires st.failure.None? ==> Bundles(rest)
    ensures Bundles(Then(st, rest))
  {
  }

  /** The runtime steps in order, the runtime reading `stdin`: make its root
      directory, marshal the request, set up the standard output and
      standard error pipes, start it, read its standard output, then its
      standard error, and wait for it. */
  function RuntimeActions(stdin: Bytes): seq<Action> {
    [MakeRuntimeRoot] + ([MarshalRequest] + StartActions(stdin))
  }

  /** The runtime steps from the pipes' set-up on. */
  function StartActions(stdin: Bytes): seq<Action> {
    [StdoutPipe] + ([StderrPipe] + ([StartRuntime(stdin)] + CollectActions))
  }

  /** The runtime steps from the read of its standard output on. */
  const CollectActions: seq<Action> := [ReadStdout] + ([ReadStderr] + [WaitRuntime])

  /** A runtime step keeps a list running the bundle. */
  lemma {:induction false} LaunchesThen(st: Step, rest: seq<Step>)
    requires AfterBundleAction(st.action)
    requires st.failure.None? ==> Launches(rest)
    ensures Launches(Then(st, rest))
  {
  }

  /** What a run has done successfully before it prepares the bundle. */
  predicate Prelude(done: seq<Event>) {
    forall e :: e in done ==> e.ok && BeforeBundle(e.action)
  }

  /** Some step performs the action. */
  predicate ActionOf(steps: seq<Step>, a: Action) {
    exists j :: 0 <= j < |steps| && steps[j].action == a
  }

  /** A run after its prelude: performs the steps that prepare the bundle
      and, once it exists, the steps that run it, then cleans it up and
      writes the response. */
  function Proceed(done: seq<Event>, pre: seq<Step>, post: seq<Step>, cleanup: Outcome, response: Bytes, write: Outcome): (x: Exit)
    ensures FirstFailure(pre) < |pre| ==> x.err == pre[FirstFailure(pre)].failure && x.response.None?
    ensures FirstFailure(pre) == |pre| ==>
      && x.err == Conclude(post, cleanup, response, write).err
      && x.response == Conclude(post, cleanup, response, write).response
  {
    var p := Perform(pre);
    if p.failure.Some? then Exit(done + p.trace, p.failure, None)
    else
      var y := Conclude(post, cleanup, response, write);
      Exit(done + p.trace + y.trace, y.err, y.response)
  }

  /** The trace of a run: the prelude, the steps preparing the bundle up
      to the first failure, and, if the bundle was created, what followed. */
  lemma {:induction false} ProceedTrace(done: seq<Event>, pre: seq<Step>, post: seq<Step>, cleanup: Outcome, response: Bytes, write: Outcome)
    ensures FirstFailure(pre) < |pre| ==>
      Proceed(done, pre, post, cleanup, response, write).trace == done + Perform(pre).trace
    ensures FirstFailure(pre) == |pre| ==>
      Proceed(done, pre, post, cleanup, response, write).trace ==
        (done + Perform(pre).trace) + Conclude(post, cleanup, response, write).trace
  {
  }

  /** Preparing the bundle performs no cleanup and no runtime step. */
  lemma {:induction false} PreparationEvents(pre: seq<Step>)
    requires Bundles(pre)
    ensures var t := Perform(pre).trace;
      forall j :: 0 <= j < |t| ==> !AfterBundleAction(t[j].action) && t[j].action != CleanupBundle
  {
    var t := Perform(pre).trace;
    forall j | 0 <= j < |t| ensures !AfterBundleAction(t[j].action) && t[j].action != CleanupBundle {
      assert t[j].action == pre[j].action;
      if j < |pre| - 1 {
        assert BeforeBundle(pre[j].action);
      }
    }
  }

  /** Preparing the bundle creates it exactly when every step succeeds. */
  lemma {:induction false} PreparationCreates(pre: seq<Step>)
    requires Bundles(pre)
    ensures Did(CreateBundle, true) in Perform(pre).trace <==> FirstFailure(pre) == |pre|
  {
    var t := Perform(pre).trace;
    var k := FirstFailure(pre);
    forall j | 0 <= j < |t| && t[j] == Did(CreateBundle, true) ensures k == |pre| {
      assert t[j] == Did(pre[j].action, j != k);
      if j < |pre| - 1 {
        assert BeforeBundle(pre[j].action);
      }
    }
    if k == |pre| {
      assert t[|pre| - 1] == Did(CreateBundle, true);
    }
  }

  /** Before its bundle exists a run performs no runtime step and no
      cleanup, and creates the bundle only as its last step. */
  lemma {:induction false} PreludeAndPreparation(done: seq<Event>, pre: seq<Step>)
    requires Prelude(done) && Bundles(pre)
    ensures var t := done + Perform(pre).trace;
      && (forall a :: AfterBundleAction(a) ==> Did(a, false) !in t)
      && (Did(CreateBundle, true) in t <==> FirstFailure(pre) == |pre|)
  {
    var t := done + Perform(pre).trace;
    PreparationEvents(pre);
    PreparationCreates(pre);
    forall a | AfterBundleAction(a) ensures Did(a, false) !in t {
      assert Did(a, false) !in done;
    }
    assert Did(CreateBundle, true) !in done;
  }

  /** Nothing is cleaned up before the bundle exists. */
  lemma {:induction false} PreparationCleansNothing(done: seq<Event>, pre: seq<Step>)
    requires Prelude(done) && Bundles(pre)
    ensures Cleanups(done + Perform(pre).trace) == 0
  {
    var p := Perform(pre).trace;
    assert Cleanups(done) == 0 by {
      forall j | 0 <= j < |done| ensures done[j].action != CleanupBundle {
        assert done[j] in done;
      }
      NoCleanups(done);
    }
    assert Cleanups(p) == 0 by {
      PreparationEvents(pre);
      NoCleanups(p);
    }
    CleanupsAdd(done, p);
  }

  /** The bundle is created exactly when every step preparing it succeeds. */
  lemma {:induction false} ProceedCreatesBundle(done: seq<Event>, pre: seq<Step>, post: seq<Step>, cleanup: Outcome, response: Bytes, write: Outcome)
    requires Prelude(done) && Bundles(pre) && Launches(post)
    ensures BundleCreated(Proceed(done, pre, post, cleanup, response, write).trace) <==> FirstFailure(pre) == |pre|
  {
    PreludeAndPreparation(done, pre);
    if FirstFailure(pre) == |pre| {
      ProceedTrace(done, pre, post, cleanup, response, write);
    }
  }

  /** Once the bundle exists it is cleaned up exactly once, unless the first
      failing step after it returns without cleaning up; before it exists,
      nothing is cleaned up. */
  lemma {:induction false} ProceedCleansUpOnce(done: seq<Event>, pre: seq<Step>, post: seq<Step>, cleanup: Outcome, response: Bytes, write: Outcome)
    requires Prelude(done) && Bundles(pre) && Launches(post)
    ensures Cleanups(Proceed(done, pre, post, cleanup, response, write).trace) ==
      if FirstFailure(pre) == |pre| && !Leaks(post) then 1 else 0
  {
    var t := Proceed(done, pre, post, cleanup, response, write).trace;
    var p := done + Perform(pre).trace;
    PreparationCleansNothing(done, pre);
    ProceedTrace(done, pre, post, cleanup, response, write);
    if FirstFailure(pre) == |pre| {
      var y := Conclude(post, cleanup, response, write).trace;
      assert t == p + y;
      CleanupsAdd(p, y);
      ConcludeCleansUpOnce(post, cleanup, response, write);
      assert Cleanups(t) == Cleanups(y);
    } else {
      assert t == p;
    }
  }

  /** Nothing but the bundle's cleanup follows a failed step. */
  lemma {:induction false} ProceedAborts(done: seq<Event>, pre: seq<Step>, post: seq<Step>, cleanup: Outcome, response: Bytes, write: Outcome)
    requires Prelude(done)
    ensures AbortsAtFirstFailure(Proceed(done, pre, post, cleanup, response, write).trace)
  {
    var p := Perform(pre);
    PerformAborts(pre);
    if p.failure.None? {
      var y := Conclude(post, cleanup, response, write);
      ConcludeAborts(post, cleanup, response, write);
      AbortsAfterSuccesses(done + p.trace, y.trace);
      ProceedTrace(done, pre, post, cleanup, response, write);
    } else {
      AbortsAfterSuccesses(done, p.trace);
      ProceedTrace(done, pre, post, cleanup, response, write);
    }
  }

  /** A response is written only after every step succeeded, the runtime
      was waited for and the bundle cleaned up successfully, as the last
      three events. */
  lemma {:induction false} ProceedRespondsLast(done: seq<Event>, pre: seq<Step>, post: seq<Step>, cleanup: Outcome, response: Bytes, write: Outcome)
    requires Launches(post)
    ensures var x := Proceed(done, pre, post, cleanup, response, write);
      && RespondsLast(x)
      && (x.response.Some? <==> FirstFailure(pre) == |pre| && FirstFailure(post) == |post| && cleanup.None?)
      && (x.response.Some? ==> x.response.value == response)
      && (x.err.None? <==> x.response.Some? && write.None?)
  {
    var x := Proceed(done, pre, post, cleanup, response, write);
    if x.response.Some? {
      var p := Perform(pre);
      var y := Conclude(post, cleanup, response, write);
      ConcludeRespondsLast(post, cleanup, response, write);
      assert y.trace[|post| - 1] == Did(WaitRuntime, true);
      assert x.trace == (done + p.trace) + y.trace;
    }
  }

  /** A step that failed after the bundle exists is the first step to fail,
      and its error is the run's. */
  lemma {:induction false} ConcludeFailsAt(post: seq<Step>, cleanup: Outcome, response: Bytes, write: Outcome, a: Action)
    requires Performable(post) && a != CleanupBundle && !a.WriteResponse?
    requires Did(a, false) in Conclude(post, cleanup, response, write).trace
    ensures FirstFailure(post) < |post|
    ensures post[FirstFailure(post)].action == a
    ensures Conclude(post, cleanup, response, write).err == post[FirstFailure(post)].failure
  {
    var y := Conclude(post, cleanup, response, write);
    ConcludePerformsInOrder(post, cleanup, response, write);
    var i :| 0 <= i < |y.trace| && y.trace[i] == Did(a, false);
    assert y.trace[i] == Did(post[i].action, i != FirstFailure(post));
  }

  /** A runtime step that failed is the first step after the bundle to
      fail, and its error is the run's. */
  lemma {:induction false} ProceedFailsAt(done: seq<Event>, pre: seq<Step>, post: seq<Step>, cleanup: Outcome, response: Bytes, write: Outcome, a: Action)
    requires Prelude(done) && Bundles(pre) && Launches(post) && AfterBundleAction(a)
    requires Did(a, false) in Proceed(done, pre, post, cleanup, response, write).trace
    ensures FirstFailure(post) < |post|
    ensures post[FirstFailure(post)].action == a
    ensures Proceed(done, pre, post, cleanup, response, write).err == post[FirstFailure(post)].failure
  {
    PreludeAndPreparation(done, pre);
    if FirstFailure(pre) == |pre| {
      ProceedTrace(done, pre, post, cleanup, response, write);
      ConcludeFailsAt(post, cleanup, response, write, a);
    }
  }

  /** Every event of a run after its prelude is a step it was given, the
      bundle's cleanup, or the response write. */
  lemma {:induction false} ProceedEvents(done: seq<Event>, pre: seq<Step>, post: seq<Step>, cleanup: Outcome, response: Bytes, write: Outcome)
    requires Performable(post)
    ensures forall e :: e in Proceed(done, pre, post, cleanup, response, write).trace ==>
      e in done || ActionOf(pre, e.action) || ActionOf(post, e.action) ||
      e.action == CleanupBundle || e.action.WriteResponse?
  {
    var p := Perform(pre).trace;
    var y := Conclude(post, cleanup, response, write).trace;
    ProceedTrace(done, pre, post, cleanup, response, write);
    ConcludePerformsInOrder(post, cleanup, response, write);
    forall e | e in p ensures ActionOf(pre, e.action) {
      var j :| 0 <= j < |p| && p[j] == e;
      assert p[j].action == pre[j].action;
    }
    forall e | e in y && e.action != CleanupBundle && !e.action.WriteResponse? ensures ActionOf(post, e.action) {
      var j :| 0 <= j < |y| && y[j] == e;
      assert y[j].action == post[j].action;
    }
  }

  /** The first step after the bundle to fail is recorded as failed in the
      run's trace. */
  lemma {:induction false} ProceedRecordsFailure(done: seq<Event>, pre: seq<Step>, post: seq<Step>, cleanup: Outcome, response: Bytes, write: Outcome)
    requires FirstFailure(pre) == |pre| && FirstFailure(post) < |post|
    ensures Did(post[FirstFailure(post)].action, false) in Proceed(done, pre, post, cleanup, response, write).trace
  {
    var k := FirstFailure(post);
    var p := Perform(post).trace;
    var y := Conclude(post, cleanup, response, write).trace;
    ProceedTrace(done, pre, post, cleanup, response, write);
    assert p[k] == Did(post[k].action, false);
    assert y[k] == p[k];
    assert y[k] in y;
  }
}
