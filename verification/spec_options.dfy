/** The spec options of both spark commands: FromRunFunctionConfig (xfn-oci)
    and FromResourcesConfig (function-runtime-oci) extend the OCI runtime spec
    with a CPU limit, a memory limit and host networking, each only when
    asked for, stopping at the first mutator that fails. The mutators
    themselves (quantity parsing, spec layout) are outside the model: they
    are one fallible function over a spec of any type S. */
module SpecOptions {
  import opened Base
  import opened Errors
  import XfnProto
  import FnConfig

  const errCPULimit := "cannot limit container CPU"
  const errMemoryLimit := "cannot limit container memory"
  const errHostNetwork := "cannot configure container to run in host network namespace"

  /** One spec mutator invocation: spec.WithCPULimit(q), spec.WithMemoryLimit(q)
      or spec.WithHostNetwork(). */
  datatype Mutation = CpuLimit(quantity: string) | MemoryLimit(quantity: string) | HostNetwork

  /** The message a mutator's failure is wrapped with. */
  function StageMessage(m: Mutation): string {
    match m
    case CpuLimit(_) => errCPULimit
    case MemoryLimit(_) => errMemoryLimit
    case HostNetwork => errHostNetwork
  }

  /** The mutators invoked so far, in order, and the spec or error they led to. */
  datatype Applied<S> = Applied(attempted: seq<Mutation>, result: Result<S>)

  predicate FailedAtLast<S>(a: Applied<S>) {
    a.result.Failure? && |a.attempted| > 0 &&
    a.result.error.Wrapped? && a.result.error.context == StageMessage(a.attempted[|a.attempted| - 1])
  }

  /** Invokes m on the spec so far, unless an earlier mutator failed. */
  function Then<S>(prev: Applied<S>, m: Mutation, mutate: (Mutation, S) -> Result<S>): Applied<S> {
    if prev.result.Failure? then prev
    else
      var r := mutate(m, prev.result.value);
      Applied(prev.attempted + [m], if r.Failure? then Failure(Wrapped(StageMessage(m), r.error)) else r)
  }

  /** Reference semantics: invoke the mutators of `plan` left to right on s,
      stopping at the first failure. Exactly a prefix of the plan is invoked;
      the whole plan when every mutator succeeds, and otherwise up to and
      including the failing one, whose error is wrapped with its stage
      message. */
  function ApplyInOrder<S>(plan: seq<Mutation>, mutate: (Mutation, S) -> Result<S>, s: S): (r: Applied<S>)
    ensures r.attempted <= plan
    ensures r.result.Success? ==> r.attempted == plan
    ensures r.result.Failure? ==> FailedAtLast(r)
    decreases |plan|
  {
    if |plan| == 0 then Applied([], Success(s))
    else Then(ApplyInOrder(plan[..|plan| - 1], mutate, s), plan[|plan| - 1], mutate)
  }

  /** r stops at the plan's first failing mutator: when it failed, the
      mutators before the k-th, the last attempted, all succeeded, and its
      error is the k-th mutator's own error on the spec they built, wrapped
      with its stage message; when it succeeded, its spec is what the last
      mutator returned on the spec the others built, or s for an empty plan. */
  ghost predicate StopsAtFirstFailure<S>(plan: seq<Mutation>, mutate: (Mutation, S) -> Result<S>, s: S, r: Applied<S>) {
    && (r.result.Failure? ==>
          && 0 < |r.attempted| <= |plan|
          && var k := |r.attempted| - 1;
             var before := ApplyInOrder(plan[..k], mutate, s);
             && before.result.Success?
             && mutate(plan[k], before.result.value).Failure?
             && r.result.error == Wrapped(StageMessage(plan[k]), mutate(plan[k], before.result.value).error))
    && (r.result.Success? && |plan| == 0 ==> r.result == Success(s))
    && (r.result.Success? && |plan| > 0 ==>
          var before := ApplyInOrder(plan[..|plan| - 1], mutate, s);
          before.result.Success? && r.result == mutate(plan[|plan| - 1], before.result.value))
  }

  /** The reference semantics stops at the first failure. */
  lemma {:induction false} ApplyInOrderStops<S>(plan: seq<Mutation>, mutate: (Mutation, S) -> Result<S>, s: S)
    ensures StopsAtFirstFailure(plan, mutate, s, ApplyInOrder(plan, mutate, s))
    decreases |plan|
  {
    if |plan| > 0 {
      var n := |plan| - 1;
      var prev := ApplyInOrder(plan[..n], mutate, s);
      var r := ApplyInOrder(plan, mutate, s);
      assert r == Then(prev, plan[n], mutate);
      if prev.result.Failure? {
        assert r == prev;
        ApplyInOrderStops(plan[..n], mutate, s);
        var k := |prev.attempted| - 1;
        assert plan[..n][..k] == plan[..k];
        assert plan[..n][k] == plan[k];
      } else {
        assert prev.attempted == plan[..n];
        assert |r.attempted| - 1 == n;
      }
    }
  }

  /** The mutators a CPU limit, a memory limit and a host-network flag call
      for, in the order the options invoke them; an empty quantity means
      "unset". */
  function Plan(cpu: string, memory: string, hostNetwork: bool): (plan: seq<Mutation>)
    ensures forall q :: CpuLimit(q) in plan <==> q == cpu && cpu != ""
    ensures forall q :: MemoryLimit(q) in plan <==> q == memory && memory != ""
    ensures HostNetwork in plan <==> hostNetwork
    ensures |plan| == (if cpu != "" then 1 else 0) + (if memory != "" then 1 else 0) + (if hostNetwork then 1 else 0)
    ensures forall i, j :: 0 <= i < j < |plan| ==> plan[i].CpuLimit? || (plan[i].MemoryLimit? && plan[j].HostNetwork?)
  {
    (if cpu != "" then [CpuLimit(cpu)] else [])
    + (if memory != "" then [MemoryLimit(memory)] else [])
    + (if hostNetwork then [HostNetwork] else [])
  }

  /** What FromRunFunctionConfig(cfg) asks for: the CPU and memory limits
      under cfg.resources.limits, and host networking when the network
      policy is RUNNER (UNSPECIFIED, ISOLATED and unrecognized numbers all
      keep the private network namespace). */
  function RunFunctionPlan(cfg: Option<XfnProto.RunFunctionConfig>): seq<Mutation> {
    var limits := XfnProto.LimitsOf(cfg);
    Plan(limits.cpu, limits.memory, XfnProto.NetworkPolicyOf(cfg) == XfnProto.NetworkPolicyRunner)
  }

  /** What FromResourcesConfig(cfg) asks for: nothing for a nil config. */
  function ResourcesPlan(cfg: Option<FnConfig.ResourcesConfig>): seq<Mutation> {
    match cfg
    case None => []
    case Some(c) => Plan(c.cpuLimit, c.memoryLimit, c.networkPolicy == FnConfig.NetworkPolicyRunner)
  }

  /** FromRunFunctionConfig(cfg) applied to spec s. */
  function FromRunFunctionConfig<S>(cfg: Option<XfnProto.RunFunctionConfig>, mutate: (Mutation, S) -> Result<S>, s: S): (r: Applied<S>)
    ensures r.attempted <= RunFunctionPlan(cfg)
    ensures r.result.Success? ==> r.attempted == RunFunctionPlan(cfg)
    ensures r.result.Failure? ==> FailedAtLast(r)
    ensures StopsAtFirstFailure(RunFunctionPlan(cfg), mutate, s, r)
  {
    var limits := XfnProto.LimitsOf(cfg);
    ThreeStepsFollowPlan(limits.cpu, limits.memory, XfnProto.NetworkPolicyOf(cfg) == XfnProto.NetworkPolicyRunner, mutate, s);
    ApplyInOrderStops(RunFunctionPlan(cfg), mutate, s);
    var a0 := Applied([], Success(s));
    var a1 := if limits.cpu != "" then Then(a0, CpuLimit(limits.cpu), mutate) else a0;
    var a2 := if limits.memory != "" then Then(a1, MemoryLimit(limits.memory), mutate) else a1;
    if XfnProto.NetworkPolicyOf(cfg) == XfnProto.NetworkPolicyRunner then Then(a2, HostNetwork, mutate) else a2
  }

  /** FromResourcesConfig(cfg) applied to spec s. A nil config is a no-op
      that succeeds. */
  function FromResourcesConfig<S>(cfg: Option<FnConfig.ResourcesConfig>, mutate: (Mutation, S) -> Result<S>, s: S): (r: Applied<S>)
    ensures cfg.None? ==> r == Applied([], Success(s))
    ensures r.attempted <= ResourcesPlan(cfg)
    ensures r.result.Success? ==> r.attempted == ResourcesPlan(cfg)
    ensures r.result.Failure? ==> FailedAtLast(r)
    ensures StopsAtFirstFailure(ResourcesPlan(cfg), mutate, s, r)
  {
    match cfg
    case None => Applied([], Success(s))
    case Some(c) =>
      ThreeStepsFollowPlan(c.cpuLimit, c.memoryLimit, c.networkPolicy == FnConfig.NetworkPolicyRunner, mutate, s);
      ApplyInOrderStops(ResourcesPlan(cfg), mutate, s);
      var a0 := Applied([], Success(s));
      var a1 := if c.cpuLimit != "" then Then(a0, CpuLimit(c.cpuLimit), mutate) else a0;
      var a2 := if c.memoryLimit != "" then Then(a1, MemoryLimit(c.memoryLimit), mutate) else a1;
      if c.networkPolicy == FnConfig.NetworkPolicyRunner then Then(a2, HostNetwork, mutate) else a2
  }

  /** Applying the plan of up to three mutators step by step is the reference
      semantics over that plan. */
  lemma {:induction false} ThreeStepsFollowPlan<S>(cpu: string, memory: string, hostNetwork: bool,
                                                   mutate: (Mutation, S) -> Result<S>, s: S)
    ensures
      var a0 := Applied([], Success(s));
      var a1 := if cpu != "" then Then(a0, CpuLimit(cpu), mutate) else a0;
      var a2 := if memory != "" then Then(a1, MemoryLimit(memory), mutate) else a1;
      (if hostNetwork then Then(a2, HostNetwork, mutate) else a2) == ApplyInOrder(Plan(cpu, memory, hostNetwork), mutate, s)
  {
    var p1 := if cpu != "" then [CpuLimit(cpu)] else [];
    var p2 := p1 + (if memory != "" then [MemoryLimit(memory)] else []);
    var p3 := p2 + (if hostNetwork then [HostNetwork] else []);
    assert Plan(cpu, memory, hostNetwork) == p3;
    var a0 := Applied([], Success(s));
    var a1 := if cpu != "" then Then(a0, CpuLimit(cpu), mutate) else a0;
    var a2 := if memory != "" then Then(a1, MemoryLimit(memory), mutate) else a1;
    assert a0 == ApplyInOrder([], mutate, s);
    if cpu != "" {
      assert p1[..|p1| - 1] == [];
    }
    assert a1 == ApplyInOrder(p1, mutate, s);
    if memory != "" {
      assert p2[..|p2| - 1] == p1;
    } else {
      assert p2 == p1;
    }
    assert a2 == ApplyInOrder(p2, mutate, s);
    if hostNetwork {
      assert p3[..|p3| - 1] == p2;
    } else {
      assert p3 == p2;
    }
  }

  /** FromRunFunctionConfig is the reference semantics over RunFunctionPlan:
      CPU, then memory, then host network, each only when asked for, the
      first failure aborting the rest. */
  lemma {:induction false} FromRunFunctionConfigFollowsPlan<S>(cfg: Option<XfnProto.RunFunctionConfig>, mutate: (Mutation, S) -> Result<S>, s: S)
    ensures FromRunFunctionConfig(cfg, mutate, s) == ApplyInOrder(RunFunctionPlan(cfg), mutate, s)
  {
    var limits := XfnProto.LimitsOf(cfg);
    ThreeStepsFollowPlan(limits.cpu, limits.memory, XfnProto.NetworkPolicyOf(cfg) == XfnProto.NetworkPolicyRunner, mutate, s);
  }

  /** FromResourcesConfig is the reference semantics over ResourcesPlan. */
  lemma {:induction false} FromResourcesConfigFollowsPlan<S>(cfg: Option<FnConfig.ResourcesConfig>, mutate: (Mutation, S) -> Result<S>, s: S)
    ensures FromResourcesConfig(cfg, mutate, s) == ApplyInOrder(ResourcesPlan(cfg), mutate, s)
  {
    if cfg.Some? {
      var c := cfg.value;
      ThreeStepsFollowPlan(c.cpuLimit, c.memoryLimit, c.networkPolicy == FnConfig.NetworkPolicyRunner, mutate, s);
    }
  }
}
