/** Upstream-proxy resolution: from the separately configured HTTP and HTTPS
    upstream proxies, pick the single upstream the engine will chain to and
    derive the engine options that select it. */
module Upstream {
  import opened PyValues

  /** One upstream proxy as `get_upstream_proxy` describes it:
      `(scheme, username, password, hostport)`; the credentials may be None. */
  datatype ProxyConf = ProxyConf(
    scheme: string,
    username: Option<string>,
    password: Option<string>,
    hostport: string)

  /** The record `get_upstream_proxy` returns, taken as given: the `http` and
      `https` entries, and the raw `custom_authorization` and `no_proxy`
      entries (VNone when absent). */
  datatype UpstreamProxy = UpstreamProxy(
    http: Option<ProxyConf>,
    https: Option<ProxyConf>,
    customAuthorization: Value,
    noProxy: Value)

  const ModeKey := "mode"
  const AuthKey := "upstream_auth"
  const CustomAuthKey := "upstream_custom_auth"
  const NoProxyKey := "no_proxy"

  /** Every engine option the resolver can produce. */
  const UpstreamOptionNames: set<string> := {ModeKey, AuthKey, CustomAuthKey, NoProxyKey}

  /** The one upstream proxy to use, none, or a conflict. */
  function ChooseUpstream(pc: UpstreamProxy): (r: Result<Option<ProxyConf>, ConfigError>)
    // conflicting targets are the only failure, and are reported as such
    ensures r.Failure? <==>
              pc.http.Some? && pc.https.Some? && pc.http.value.hostport != pc.https.value.hostport
    ensures r.Failure? ==> r.error == DifferentUpstreamProxies
    // no upstream at all exactly when neither scheme has one
    ensures r == Success(None) <==> pc.http.None? && pc.https.None?
    // a chosen proxy is one of those configured, HTTPS first, and every
    // configured proxy points at the chosen host and port
    ensures r.Success? && r.value.Some? ==>
              (r.value == pc.https || (pc.https.None? && r.value == pc.http)) &&
              (pc.http.Some? ==> pc.http.value.hostport == r.value.value.hostport) &&
              (pc.https.Some? ==> pc.https.value.hostport == r.value.value.hostport)
  {
    if pc.http.Some? && pc.https.Some? then
      if pc.http.value.hostport != pc.https.value.hostport then Failure(DifferentUpstreamProxies)
      else Success(pc.https)
    else if pc.http.Some? then Success(pc.http)
    else if pc.https.Some? then Success(pc.https)
    else Success(None)
  }

  /** `'upstream:{}://{}'.format(scheme, hostport)`. */
  function ModeString(scheme: string, hostport: string): string {
    "upstream:" + scheme + "://" + hostport
  }

  /** `'{}:{}'.format(username, password)`. */
  function AuthString(username: Option<string>, password: Option<string>): string {
    Format(username) + ":" + Format(password)
  }

  /** The options the engine receives for a chosen upstream proxy. */
  function OptionsFor(conf: ProxyConf, pc: UpstreamProxy): map<string, Value> {
    var withMode := map[ModeKey := VStr(ModeString(conf.scheme, conf.hostport))];
    var withAuth :=
      if NonEmpty(conf.username) then withMode[AuthKey := VStr(AuthString(conf.username, conf.password))]
      else withMode;
    var withCustomAuth :=
      if Truthy(pc.customAuthorization) then withAuth[CustomAuthKey := pc.customAuthorization]
      else withAuth;
    if Truthy(pc.noProxy) then withCustomAuth[NoProxyKey := pc.noProxy] else withCustomAuth
  }

  /** The keyword arguments `_get_upstream_proxy_args` contributes to the
      engine options, or the error it raises. */
  function UpstreamArgs(pc: UpstreamProxy): Result<map<string, Value>, ConfigError> {
    var chosen :- ChooseUpstream(pc);
    if chosen.None? then Success(map[]) else Success(OptionsFor(chosen.value, pc))
  }

  /** `_get_upstream_proxy_args`: the if/elif chain picks `conf`, then the
      arguments are inserted into `args` one by one. */
  method GetUpstreamProxyArgs(pc: UpstreamProxy) returns (r: Result<map<string, Value>, ConfigError>)
    ensures r == UpstreamArgs(pc)
  {
    var http, https := pc.http, pc.https;
    var conf: Option<ProxyConf> := None;
    if http.Some? && https.Some? {
      if http.value.hostport != https.value.hostport {
        return Failure(DifferentUpstreamProxies);
      }
      conf := https;
    } else if http.Some? {
      conf := http;
    } else if https.Some? {
      conf := https;
    }

    var args: map<string, Value> := map[];
    if conf.Some? {
      var ProxyConf(scheme, username, password, hostport) := conf.value;
      args := args[ModeKey := VStr(ModeString(scheme, hostport))];
      if NonEmpty(username) {
        args := args[AuthKey := VStr(AuthString(username, password))];
      }
      var customAuth := pc.customAuthorization;
      if Truthy(customAuth) {
        args := args[CustomAuthKey := customAuth];
      }
      var noProxy := pc.noProxy;
      if Truthy(noProxy) {
        args := args[NoProxyKey := noProxy];
      }
      assert args == OptionsFor(conf.value, pc);
    }
    assert Success(conf) == ChooseUpstream(pc);
    return Success(args);
  }

  /** Without any upstream proxy the resolver contributes nothing, whatever
      custom authorization or no-proxy list was supplied. */
  lemma NoUpstreamIgnoresExtras(pc: UpstreamProxy)
    requires pc.http.None? && pc.https.None?
    ensures UpstreamArgs(pc) == Success(map[])
    ensures forall ca, np :: UpstreamArgs(pc.(customAuthorization := ca, noProxy := np)) == Success(map[])
  {
  }

  /** Which options appear, and with what values, once an upstream is chosen
      or not. */
  lemma UpstreamArgsFields(pc: UpstreamProxy)
    requires UpstreamArgs(pc).Success?
    ensures ChooseUpstream(pc).Success?
    ensures var args, chosen := UpstreamArgs(pc).value, ChooseUpstream(pc).value;
      && args.Keys <= UpstreamOptionNames
      && (ModeKey in args <==> chosen.Some?)
      && (chosen.Some? ==> args[ModeKey] == VStr(ModeString(chosen.value.scheme, chosen.value.hostport)))
      && (AuthKey in args <==> chosen.Some? && NonEmpty(chosen.value.username))
      && (AuthKey in args ==>
            args[AuthKey] == VStr(Format(chosen.value.username) + ":" + Format(chosen.value.password)))
      && (CustomAuthKey in args <==> chosen.Some? && Truthy(pc.customAuthorization))
      && (CustomAuthKey in args ==> args[CustomAuthKey] == pc.customAuthorization)
      && (NoProxyKey in args <==> chosen.Some? && Truthy(pc.noProxy))
      && (NoProxyKey in args ==> args[NoProxyKey] == pc.noProxy)
  {
  }

  /** The split of `s` at the first occurrence of `sep`, if any. */
  function SplitFirst(s: string, sep: string): (r: Option<(string, string)>)
    requires sep != ""
    decreases |s|
  {
    if sep <= s then Some(("", s[|sep|..]))
    else if s == "" then None
    else
      match SplitFirst(s[1..], sep)
      case None => None
      case Some((before, after)) => Some(([s[0]] + before, after))
  }

  /** Splitting `a + sep + b` at the first `sep` gives back `a` and `b` when
      `a` cannot start an occurrence of `sep`. */
  lemma {:induction false} SplitFirstConcat(a: string, sep: string, b: string)
    requires sep != "" && sep[0] !in a
    ensures SplitFirst(a + sep + b, sep) == Some((a, b))
  {
    var s := a + sep + b;
    if a == "" {
      assert s == sep + b;
      assert sep <= s;
      assert s[|sep|..] == b;
    } else {
      assert !(sep <= s) by {
        assert s[0] == a[0] != sep[0];
      }
      assert s[1..] == a[1..] + sep + b;
      SplitFirstConcat(a[1..], sep, b);
      assert [s[0]] + a[1..] == a;
    }
  }

  /** The engine's mode string names the scheme and host:port it was built
      from: both can be read back, as long as the scheme has no colon. */
  lemma ModeRoundTrip(scheme: string, hostport: string)
    requires ':' !in scheme
    ensures var m := ModeString(scheme, hostport);
      && "upstream:" <= m
      && SplitFirst(m[|"upstream:"|..], "://") == Some((scheme, hostport))
  {
    var m := ModeString(scheme, hostport);
    assert m[|"upstream:"|..] == scheme + "://" + hostport;
    SplitFirstConcat(scheme, "://", hostport);
  }

  /** The upstream credentials string gives back the user name and the
      password, as long as the user name has no colon. */
  lemma AuthRoundTrip(username: string, password: string)
    requires ':' !in username
    ensures SplitFirst(AuthString(Some(username), Some(password)), ":") == Some((username, password))
  {
    SplitFirstConcat(username, ":", password);
  }
}
