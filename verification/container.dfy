/** The container runner of xfn-oci: its construction from functional options
    over defaults, and ConfigFromRequest. */
module Container {
  import opened Base
  import opened Errors
  import opened XfnProto

  const errUnmarshalConfig := "cannot unmarshal input to RunFunctionRequestConfig"
  const errMarshalRequestInput := "cannot marshal Input to JSON"

  /** The cache directory a runner uses unless told otherwise. */
  const DefaultCacheDir := "/xfn"

  /** The Runner's configuration (its logger is not modelled). */
  datatype Runner = Runner(
    rootUID: int,
    rootGID: int,
    setuid: bool,
    cache: string,
    registry: string,
    defaultImage: Option<string>)

  /** The runner's defaults: cache "/xfn", everything else zero or unset. */
  const Defaults := Runner(0, 0, false, DefaultCacheDir, "", None)

  /** A RunnerOption (WithLogger is not modelled). */
  datatype RunnerOption =
    | MapToRoot(uid: int, gid: int)
    | SetUID(s: bool)
    | WithDefaultImage(image: string)
    | WithCacheDir(dir: string)
    | WithRegistry(registry: string)

  /** Applies one option. Each sets only its own fields; WithDefaultImage("")
      sets nothing. */
  function Apply(o: RunnerOption, r: Runner): (r': Runner)
    ensures o.MapToRoot? ==> r'.rootUID == o.uid && r'.rootGID == o.gid && r'.(rootUID := r.rootUID, rootGID := r.rootGID) == r
    ensures o.SetUID? ==> r'.setuid == o.s && r'.(setuid := r.setuid) == r
    ensures o.WithDefaultImage? && o.image == "" ==> r' == r
    ensures o.WithDefaultImage? && o.image != "" ==> r'.defaultImage == Some(o.image) && r'.(defaultImage := r.defaultImage) == r
    ensures o.WithCacheDir? ==> r'.cache == o.dir && r'.(cache := r.cache) == r
    ensures o.WithRegistry? ==> r'.registry == o.registry && r'.(registry := r.registry) == r
  {
    match o
    case MapToRoot(uid, gid) => r.(rootUID := uid, rootGID := gid)
    case SetUID(s) => r.(setuid := s)
    case WithDefaultImage(image) => if image == "" then r else r.(defaultImage := Some(image))
    case WithCacheDir(d) => r.(cache := d)
    case WithRegistry(reg) => r.(registry := reg)
  }

  /** Applies the options left to right, as the construction loop does. */
  function ApplyAll(r: Runner, opts: seq<RunnerOption>): Runner
    decreases |opts|
  {
    if |opts| == 0 then r else ApplyAll(Apply(opts[0], r), opts[1..])
  }

  /** What each kind of option contributes, if anything. */
  function RootOf(o: RunnerOption): Option<(int, int)> {
    if o.MapToRoot? then Some((o.uid, o.gid)) else None
  }
  function SetUIDOf(o: RunnerOption): Option<bool> {
    if o.SetUID? then Some(o.s) else None
  }
  function DefaultImageOf(o: RunnerOption): Option<string> {
    if o.WithDefaultImage? && o.image != "" then Some(o.image) else None
  }
  function CacheDirOf(o: RunnerOption): Option<string> {
    if o.WithCacheDir? then Some(o.dir) else None
  }
  function RegistryOf(o: RunnerOption): Option<string> {
    if o.WithRegistry? then Some(o.registry) else None
  }

  /** The contribution of the last option of a kind, if any. */
  function Last<T>(opts: seq<RunnerOption>, pick: RunnerOption -> Option<T>): Option<T>
    decreases |opts|
  {
    if |opts| == 0 then None
    else
      var later := Last(opts[1..], pick);
      if later.Some? then later else pick(opts[0])
  }

  /** Later options win: after all options, each field holds what the last
      option of its kind put there, or its value before when there is none. */
  lemma {:induction false} LastOptionWins(r: Runner, opts: seq<RunnerOption>)
    ensures var r' := ApplyAll(r, opts);
      && (r'.rootUID, r'.rootGID) == Last(opts, RootOf).GetOr((r.rootUID, r.rootGID))
      && r'.setuid == Last(opts, SetUIDOf).GetOr(r.setuid)
      && r'.defaultImage == (if Last(opts, DefaultImageOf).Some? then Last(opts, DefaultImageOf) else r.defaultImage)
      && r'.cache == Last(opts, CacheDirOf).GetOr(r.cache)
      && r'.registry == Last(opts, RegistryOf).GetOr(r.registry)
    decreases |opts|
  {
    if |opts| > 0 {
      LastOptionWins(Apply(opts[0], r), opts[1..]);
    }
  }

  /** NewContainerRunner(opts...): the options over the defaults. With no
      options the runner caches in "/xfn", maps UID/GID 0, does not setuid
      and has no default image; otherwise every field is the last option's
      of its kind. */
  function NewContainerRunner(opts: seq<RunnerOption>): (r: Runner)
    ensures |opts| == 0 ==> r == Runner(0, 0, false, "/xfn", "", None)
    ensures (r.rootUID, r.rootGID) == Last(opts, RootOf).GetOr((0, 0))
    ensures r.setuid == Last(opts, SetUIDOf).GetOr(false)
    ensures r.defaultImage == Last(opts, DefaultImageOf)
    ensures r.cache == Last(opts, CacheDirOf).GetOr(DefaultCacheDir)
    ensures r.registry == Last(opts, RegistryOf).GetOr("")
  {
    LastOptionWins(Defaults, opts);
    ApplyAll(Defaults, opts)
  }

  /** ConfigFromRequest. A request without input yields the zero config and
      no error; otherwise the input is marshalled to JSON and unmarshalled as
      a RunFunctionRequestConfig, and a failure of either is returned wrapped
      with its own message, without a config. The two conversions are the
      protobuf and JSON libraries', passed in. */
  function ConfigFromRequest(req: Request, marshalInput: Input -> Result<Bytes>,
                             unmarshalConfig: Bytes -> Result<RequestConfig>): (r: Result<RequestConfig>)
    ensures req.input.None? ==> r == Success(EmptyConfig)
    ensures req.input.Some? && marshalInput(req.input.value).Failure? ==>
      r == Failure(Wrapped(errMarshalRequestInput, marshalInput(req.input.value).error))
    ensures req.input.Some? && marshalInput(req.input.value).Success? ==>
      var decoded := unmarshalConfig(marshalInput(req.input.value).value);
      r == if decoded.Success? then decoded else Failure(Wrapped(errUnmarshalConfig, decoded.error))
  {
    match req.input
    case None => Success(EmptyConfig)
    case Some(input) =>
      var inputJSON := marshalInput(input);
      if inputJSON.Failure? then Failure(Wrapped(errMarshalRequestInput, inputJSON.error))
      else
        var cfg := unmarshalConfig(inputJSON.value);
        if cfg.Failure? then Failure(Wrapped(errUnmarshalConfig, cfg.error)) else cfg
  }
}
