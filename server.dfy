/** `MitmProxy.__init__`: the proxy object that owns the capture storage,
    the scope list and the interceptor references, and that configures the
    engine once, at construction. */
module Server {
  import opened PyValues
  import opened Upstream
  import opened Engine

  /** The scope pattern that matches no URL at all. */
  const NeverMatch := "$^"

  /** A reference to a caller-supplied interceptor callable. */
  datatype Interceptor = Interceptor(id: nat)

  /** What construction does to collaborators outside this model, in order:
      create the storage, extract the certificate into its home directory,
      register the addons, update the engine options, create the server. */
  datatype Step =
    | CreateStorage(args: StorageArgs)
    | ExtractCertAndKey(homeDir: string)
    | RegisterAddons
    | UpdateEngineOptions(engineOptions: map<string, Value>)
    | CreateServer

  /** The first two steps of construction: the storage is created from the
      options, then the certificate is extracted into its home directory. */
  function StorageSteps(options: Options, homeDir: string): seq<Step> {
    [CreateStorage(GetStorageArgs(options)), ExtractCertAndKey(homeDir)]
  }

  /** `options.get('disable_capture', False)` is truthy. */
  predicate CaptureDisabled(options: Options) {
    Truthy(Get(options, "disable_capture", VBool(false)))
  }

  class MitmProxy {
    var options: Options
    /** The home directory the created storage reports. */
    var homeDir: string
    /** Patterns of the URLs to capture; empty captures everything. */
    var scopes: seq<string>
    var requestInterceptor: Option<Interceptor>
    var responseInterceptor: Option<Interceptor>
    /** The options the engine was updated with. */
    var engineOptions: map<string, Value>
    ghost var trace: seq<Step>

    /** The first part of `__init__`: storage is created from the options
        (and reports `homeDir` as its home), the certificate is extracted
        there, every request is in scope and no interceptor is set. */
    constructor (options: Options, homeDir: string)
      ensures this.options == options && this.homeDir == homeDir
      ensures scopes == [] && requestInterceptor.None? && responseInterceptor.None?
      ensures engineOptions == map[]
      ensures trace == StorageSteps(options, homeDir)
    {
      this.options := options;
      trace := [CreateStorage(GetStorageArgs(options))];
      this.homeDir := homeDir;
      trace := trace + [ExtractCertAndKey(homeDir)];
      scopes := [];
      requestInterceptor := None;
      responseInterceptor := None;
      engineOptions := map[];
    }

    /** The rest of `__init__`: the addons are registered, the engine is
        updated with the merged options (or the call raises), the server is
        created, and capture is switched off when the options say so. */
    method ConfigureEngine(host: string, port: int, pc: UpstreamProxy) returns (err: Option<ConfigError>)
      requires trace == StorageSteps(options, homeDir) && engineOptions == map[] && scopes == []
      modifies this
      ensures options == old(options) && homeDir == old(homeDir)
      ensures requestInterceptor == old(requestInterceptor) && responseInterceptor == old(responseInterceptor)
      ensures var expected := EngineOptions(homeDir, host, port, options, pc);
        && (err.None? <==> expected.Success?)
        && (err.Some? ==>
              && err.value == expected.error
              && engineOptions == old(engineOptions)
              && scopes == old(scopes)
              && trace == old(trace) + [RegisterAddons])
        && (err.None? ==>
              && engineOptions == expected.value
              && scopes == (if CaptureDisabled(options) then [NeverMatch] else old(scopes))
              && trace == old(trace) + [RegisterAddons] + [UpdateEngineOptions(engineOptions), CreateServer])
    {
      var opts, home := options, homeDir;
      ghost var expected := EngineOptions(home, host, port, opts, pc);
      trace := trace + [RegisterAddons];

      var upstream := GetUpstreamProxyArgs(pc);
      if upstream.Failure? {
        assert expected == Failure(upstream.error);
        return Some(upstream.error);
      }
      var merged := MergeKeywords(ExplicitOptions(home, host, port, opts), upstream.value, PassThrough(opts));
      assert expected == merged;
      if merged.Failure? {
        return Some(merged.error);
      }
      engineOptions := merged.value;
      trace := trace + [UpdateEngineOptions(engineOptions), CreateServer];

      if CaptureDisabled(opts) {
        scopes := [NeverMatch];
      }
      return None;
    }
  }

  /** `MitmProxy(host, port, options)`, with `homeDir` the home directory of
      the storage it creates and `pc` what `get_upstream_proxy(options)`
      returns. On failure no proxy is returned, yet the storage was created,
      the certificate extracted and the addons registered, and nothing is
      cleaned up. */
  method NewMitmProxy(host: string, port: int, options: Options, pc: UpstreamProxy, homeDir: string)
    returns (r: Result<MitmProxy, ConfigError>, ghost trace: seq<Step>)
    ensures r.Success? <==> EngineOptions(homeDir, host, port, options, pc).Success?
    ensures r.Failure? ==>
              && r.error == EngineOptions(homeDir, host, port, options, pc).error
              && trace == StorageSteps(options, homeDir) + [RegisterAddons]
    ensures r.Success? ==>
              && fresh(r.value)
              && r.value.options == options
              && r.value.homeDir == homeDir
              && r.value.engineOptions == EngineOptions(homeDir, host, port, options, pc).value
              && r.value.scopes == (if CaptureDisabled(options) then [NeverMatch] else [])
              && r.value.requestInterceptor.None?
              && r.value.responseInterceptor.None?
              && trace == r.value.trace
              && trace == StorageSteps(options, homeDir) + [RegisterAddons] + [UpdateEngineOptions(r.value.engineOptions), CreateServer]
  {
    var proxy := new MitmProxy(options, homeDir);
    var err := proxy.ConfigureEngine(host, port, pc);
    trace := proxy.trace;
    if err.Some? {
      r := Failure(err.value);
    } else {
      r := Success(proxy);
    }
  }
}
