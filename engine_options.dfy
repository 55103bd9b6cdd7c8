/** The options handed to the engine by `MitmProxy.__init__`: the explicit
    keyword arguments, the upstream-proxy arguments and the `mitm_`
    pass-through options, merged as Python merges keyword arguments; and the
    arguments handed to the capture storage. */
module Engine {
  import opened PyValues
  import opened Upstream

  const DefaultSslInsecure := true
  const DefaultStreamWebsockets := true
  const DefaultSuppressConnectionErrors := true

  /** The keywords `__init__` names explicitly in its call to the engine. */
  const ExplicitOptionNames: set<string> :=
    {"confdir", "listen_host", "listen_port", "ssl_insecure", "stream_websockets", "suppress_connection_errors"}

  /** The explicit keyword arguments: the storage home directory as the
      engine's configuration directory, the listen address, and three
      policies taken from the options or their defaults. */
  function ExplicitOptions(homeDir: string, host: string, port: int, options: Options): map<string, Value> {
    map[
      "confdir" := VStr(homeDir),
      "listen_host" := VStr(host),
      "listen_port" := VInt(port),
      "ssl_insecure" := Get(options, "verify_ssl", VBool(DefaultSslInsecure)),
      "stream_websockets" := VBool(DefaultStreamWebsockets),
      "suppress_connection_errors" := Get(options, "suppress_connection_errors", VBool(DefaultSuppressConnectionErrors))
    ]
  }

  /** The explicit keywords and the values they carry. */
  lemma ExplicitOptionsFields(homeDir: string, host: string, port: int, options: Options)
    ensures var e := ExplicitOptions(homeDir, host, port, options);
      && e.Keys == ExplicitOptionNames
      && e["confdir"] == VStr(homeDir)
      && e["listen_host"] == VStr(host)
      && e["listen_port"] == VInt(port)
      && e["ssl_insecure"] == (if "verify_ssl" in options then options["verify_ssl"] else VBool(true))
      && e["stream_websockets"] == VBool(true)
      && e["suppress_connection_errors"] ==
           (if "suppress_connection_errors" in options then options["suppress_connection_errors"] else VBool(true))
  {
  }

  const MitmPrefix := "mitm_"

  predicate HasMitmPrefix(key: string) {
    MitmPrefix <= key
  }

  /** The key a pass-through option is forwarded under: `k[5:]`. */
  function Strip(key: string): string
    requires HasMitmPrefix(key)
  {
    key[|MitmPrefix|..]
  }

  /** Stripping the prefix loses nothing: prefixed keys are `mitm_` followed
      by their stripped key. */
  lemma StripInverse(key: string)
    requires HasMitmPrefix(key)
    ensures key == MitmPrefix + Strip(key)
  {
  }

  /** `{k[5:]: v for k, v in options.items() if k.startswith('mitm_')}`:
      the engine key `s` is passed through exactly when the option
      `mitm_` + `s` is set, and carries that option's value. */
  function PassThrough(options: Options): (r: map<string, Value>)
    ensures forall s :: s in r <==> MitmPrefix + s in options
    ensures forall s | s in r :: r[s] == options[MitmPrefix + s]
  {
    var keys := set k | k in options && HasMitmPrefix(k) :: Strip(k);
    forall s | s in keys ensures MitmPrefix + s in options {
      var k :| k in options && HasMitmPrefix(k) && Strip(k) == s;
      StripInverse(k);
    }
    forall s | MitmPrefix + s in options ensures s in keys {
      assert Strip(MitmPrefix + s) == s;
    }
    map s | s in keys :: options[MitmPrefix + s]
  }

  /** The options that carry the pass-through prefix. */
  function PrefixedKeys(options: Options): set<string> {
    set k | k in options && HasMitmPrefix(k)
  }

  /** Stripping is one-to-one on a set of prefixed keys. */
  lemma {:induction false} StripPreservesCount(keys: set<string>)
    requires forall k | k in keys :: HasMitmPrefix(k)
    ensures |set k | k in keys :: Strip(k)| == |keys|
  {
    if keys != {} {
      var k :| k in keys;
      var rest := keys - {k};
      StripPreservesCount(rest);
      var image := set j | j in keys :: Strip(j);
      var restImage := set j | j in rest :: Strip(j);
      assert image == restImage + {Strip(k)};
      assert Strip(k) !in restImage by {
        forall j | j in rest ensures Strip(j) != Strip(k) {
          StripInverse(j);
          StripInverse(k);
        }
      }
    }
  }

  /** The comprehension never folds two options into one engine key: there
      are exactly as many pass-through options as prefixed options. */
  lemma PassThroughCount(options: Options)
    ensures |PassThrough(options)| == |PrefixedKeys(options)|
  {
    var keys := PrefixedKeys(options);
    StripPreservesCount(keys);
    assert PassThrough(options).Keys == set k | k in keys :: Strip(k);
  }

  /** A keyword argument `**more` added to the keywords gathered `so far`:
      Python refuses a keyword given twice rather than letting one override
      the other. */
  function KwargsMerge(soFar: map<string, Value>, more: map<string, Value>): (r: Result<map<string, Value>, ConfigError>)
    ensures r.Success? <==> soFar.Keys !! more.Keys
    ensures r.Failure? ==> r.error == DuplicateKeyword(soFar.Keys * more.Keys) && soFar.Keys * more.Keys != {}
    ensures r.Success? ==>
              && r.value.Keys == soFar.Keys + more.Keys
              && (forall k | k in soFar :: r.value[k] == soFar[k])
              && (forall k | k in more :: r.value[k] == more[k])
  {
    if soFar.Keys !! more.Keys then Success(soFar + more)
    else
      assert soFar.Keys * more.Keys != {} by {
        var k :| k in soFar.Keys && k in more.Keys;
        assert k in soFar.Keys * more.Keys;
      }
      Failure(DuplicateKeyword(soFar.Keys * more.Keys))
  }

  /** The keyword arguments of the engine's `update` call, gathered as
      Python gathers them: the upstream arguments merged onto the explicit
      keywords, then the pass-through options merged onto both. */
  function MergeKeywords(explicit: map<string, Value>, upstream: map<string, Value>, passThrough: map<string, Value>)
    : Result<map<string, Value>, ConfigError>
  {
    var named :- KwargsMerge(explicit, upstream);
    KwargsMerge(named, passThrough)
  }

  /** The options the engine is updated with, or the error raised on the
      way: the upstream arguments are evaluated (and may raise) first. */
  function EngineOptions(homeDir: string, host: string, port: int, options: Options, pc: UpstreamProxy)
    : Result<map<string, Value>, ConfigError>
  {
    var upstream :- UpstreamArgs(pc);
    MergeKeywords(ExplicitOptions(homeDir, host, port, options), upstream, PassThrough(options))
  }

  /** The resolver's options never clash with the explicit keywords. */
  lemma UpstreamDisjointFromExplicit(pc: UpstreamProxy)
    requires UpstreamArgs(pc).Success?
    ensures UpstreamArgs(pc).value.Keys !! ExplicitOptionNames
  {
  }

  /** Building the engine options succeeds exactly when the upstream proxies
      agree and no pass-through option lands on an explicit or upstream key. */
  lemma EngineOptionsSucceeds(homeDir: string, host: string, port: int, options: Options, pc: UpstreamProxy)
    ensures EngineOptions(homeDir, host, port, options, pc).Success? <==>
              && ChooseUpstream(pc).Success?
              && PassThrough(options).Keys !! (ExplicitOptionNames + UpstreamArgs(pc).value.Keys)
  {
    if ChooseUpstream(pc).Success? {
      UpstreamDisjointFromExplicit(pc);
      assert ExplicitOptions(homeDir, host, port, options).Keys == ExplicitOptionNames;
    }
  }

  /** A conflict between the upstream proxies is what is reported, whatever
      the pass-through options are: it is raised before they are read. */
  lemma UpstreamConflictReportedFirst(homeDir: string, host: string, port: int, options: Options, pc: UpstreamProxy)
    requires pc.http.Some? && pc.https.Some? && pc.http.value.hostport != pc.https.value.hostport
    ensures EngineOptions(homeDir, host, port, options, pc) == Failure(DifferentUpstreamProxies)
  {
  }

  /** A pass-through option aimed at an explicit keyword (say
      `mitm_listen_port`) does not override it: construction fails. */
  lemma PassThroughCollisionFails(homeDir: string, host: string, port: int, options: Options, pc: UpstreamProxy, key: string)
    requires key in options && HasMitmPrefix(key) && Strip(key) in ExplicitOptionNames
    ensures EngineOptions(homeDir, host, port, options, pc).Failure?
    ensures ChooseUpstream(pc).Success? ==>
              exists keys :: EngineOptions(homeDir, host, port, options, pc) == Failure(DuplicateKeyword(keys)) && Strip(key) in keys
  {
    EngineOptionsSucceeds(homeDir, host, port, options, pc);
    assert Strip(key) in PassThrough(options);
    if ChooseUpstream(pc).Success? {
      UpstreamDisjointFromExplicit(pc);
      var named := ExplicitOptions(homeDir, host, port, options) + UpstreamArgs(pc).value;
      assert Strip(key) in named.Keys * PassThrough(options).Keys;
    }
  }

  /** What the engine receives on success: every explicit keyword with its
      value, the resolver's options and every prefixed option under its
      stripped key, and nothing else. */
  lemma EngineOptionsContents(homeDir: string, host: string, port: int, options: Options, pc: UpstreamProxy)
    requires EngineOptions(homeDir, host, port, options, pc).Success?
    ensures UpstreamArgs(pc).Success?
    ensures var r, upstream := EngineOptions(homeDir, host, port, options, pc).value, UpstreamArgs(pc).value;
      && r.Keys == ExplicitOptionNames + upstream.Keys + (set k | k in options && HasMitmPrefix(k) :: Strip(k))
      && r["confdir"] == VStr(homeDir)
      && r["listen_host"] == VStr(host)
      && r["listen_port"] == VInt(port)
      && r["ssl_insecure"] == (if "verify_ssl" in options then options["verify_ssl"] else VBool(true))
      && r["stream_websockets"] == VBool(true)
      && r["suppress_connection_errors"] ==
           (if "suppress_connection_errors" in options then options["suppress_connection_errors"] else VBool(true))
      && (forall k | k in upstream :: r[k] == upstream[k])
      && (forall s | MitmPrefix + s in options :: r[s] == options[MitmPrefix + s])
  {
    var upstream := UpstreamArgs(pc).value;
    var explicit := ExplicitOptions(homeDir, host, port, options);
    ExplicitOptionsFields(homeDir, host, port, options);
    UpstreamDisjointFromExplicit(pc);
    var named := KwargsMerge(explicit, upstream);
    assert named.Success?;
    var pass := PassThrough(options);
    var all := KwargsMerge(named.value, pass);
    assert all == EngineOptions(homeDir, host, port, options, pc);
    assert pass.Keys == set k | k in options && HasMitmPrefix(k) :: Strip(k);
  }

  /** Under the code as written the `verify_ssl` option is handed over as
      `ssl_insecure` unchanged: asking for verification turns it off, and
      turning it off asks the engine to verify. */
  lemma VerifySslBecomesSslInsecure(homeDir: string, host: string, port: int, options: Options, pc: UpstreamProxy, verify: bool)
    requires options == map["verify_ssl" := VBool(verify)]
    requires ChooseUpstream(pc).Success?
    ensures EngineOptions(homeDir, host, port, options, pc).Success?
    ensures EngineOptions(homeDir, host, port, options, pc).value["ssl_insecure"] == VBool(verify)
  {
    assert PassThrough(options).Keys == {} by {
      forall s ensures s !in PassThrough(options) {
        assert (MitmPrefix + s)[0] != "verify_ssl"[0];
      }
    }
    EngineOptionsSucceeds(homeDir, host, port, options, pc);
    EngineOptionsContents(homeDir, host, port, options, pc);
  }

  /** The keyword arguments of `storage.create`. */
  datatype StorageArgs = StorageArgs(memoryOnly: bool, baseDir: Value, maxsize: Value)

  /** `_get_storage_args`. */
  function GetStorageArgs(options: Options): (r: StorageArgs)
    ensures r.memoryOnly <==> "request_storage" in options && options["request_storage"] == VStr("memory")
    ensures "request_storage_base_dir" in options ==> r.baseDir == options["request_storage_base_dir"]
    ensures "request_storage_base_dir" !in options ==> r.baseDir == VNone
    ensures "request_storage_max_size" in options ==> r.maxsize == options["request_storage_max_size"]
    ensures "request_storage_max_size" !in options ==> r.maxsize == VNone
  {
    StorageArgs(
      Get(options, "request_storage", VNone) == VStr("memory"),
      Get(options, "request_storage_base_dir", VNone),
      Get(options, "request_storage_max_size", VNone))
  }
}
