# selenium-wire proxy orchestration: a Dafny model

This project models the configuration logic of `MitmProxy`, the object in
selenium-wire's `seleniumwire/server.py` that owns the capture storage and
starts the embedded mitmproxy engine, together with `SendToLogger`, the addon
that forwards the engine's log entries to Python's `logging`. It covers:

- **Upstream-proxy resolution** (`_get_upstream_proxy_args`): from the HTTP
  and HTTPS upstream proxies `get_upstream_proxy` reports, choose the single
  upstream the engine chains to (HTTPS first; distinct host:port values are a
  `ValueError`) and derive the `mode`, `upstream_auth`,
  `upstream_custom_auth` and `no_proxy` engine options. Written as a method
  that inserts into `args` step by step, proved equal to a specification
  function about which the properties are proved.
- **Engine-option assembly** (`__init__`, the `mitmproxy_opts.update(...)`
  call): the six explicit keywords with their defaults, the upstream options
  and the `mitm_` pass-through options with the prefix stripped, merged as
  Python merges keyword arguments, so that a keyword given twice is a
  `TypeError` and never an override.
- **Storage arguments** (`_get_storage_args`).
- **Construction** (`__init__`): a class `MitmProxy` whose constructor and
  `ConfigureEngine` method set its fields in the source's order (storage,
  scopes `[]`, no interceptors, engine options, then scopes `['$^']` when
  `disable_capture` is truthy). A ghost trace records the calls made on
  collaborators outside the model: the storage is created and the
  certificate extracted before the engine options are built.
- **Log-level mapping** (`SendToLogger.log`): Python's `str.replace` of
  `warn` by `warning`, then `getattr(logger, name, logger.info)`.

Modules: `PyValues` (Python values, truthiness, `dict.get`, the two
construction errors), `Upstream`, `Engine`, `LogBridge`, `Server`.

Inputs the source obtains from code outside the model are parameters: the
record `get_upstream_proxy(options)` returns (`Upstream.UpstreamProxy`), and
the storage's home directory (`homeDir`).

Three consequences of the code that a caller may not expect:

- `ssl_insecure` receives the `verify_ssl` option unchanged, defaulting to
  true (`seleniumwire/server.py:54`). So `verify_ssl=True` turns certificate
  verification off and `verify_ssl=False` turns it on
  (`Engine.VerifySslBecomesSslInsecure`).
- A `mitm_` option whose stripped name is an explicit or upstream keyword
  never overrides it. The call raises `TypeError` instead
  (`seleniumwire/server.py:50-60`, `Engine.PassThroughCollisionFails`).
- When construction fails with either configuration error, the storage has been created, the certificate
  extracted and the addons registered, and nothing is cleaned up
  (`seleniumwire/server.py:27-28, 46-48, 57`, `Server.NewMitmProxy`).

## Model

| member | source | states |
|---|---|---|
| `Upstream.ChooseUpstream` | seleniumwire/server.py:94-107 | fails exactly when both proxies are set with different host:port, and then with the different-proxies error; no proxy exactly when neither is set; a chosen proxy is the HTTPS one when present, else the HTTP one, and every configured proxy has the chosen host:port |
| `Upstream.GetUpstreamProxyArgs` | seleniumwire/server.py:92-129 | the arguments built by the if/elif choice and the conditional insertions are exactly the resolver's specified result, error included |
| `Upstream.UpstreamArgsFields` | seleniumwire/server.py:109-129 | on success only the four upstream keys can appear; `mode` appears iff a proxy is chosen and is `upstream:` + scheme + `://` + host:port; `upstream_auth` appears iff the chosen username is non-empty and is `username:password`; `upstream_custom_auth` and `no_proxy` appear iff a proxy is chosen and the input is truthy, with the input unchanged |
| `Upstream.NoUpstreamIgnoresExtras` | seleniumwire/server.py:109-111 | with neither proxy set the result is the empty map, whatever custom authorization or no-proxy list is given |
| `Upstream.ModeRoundTrip` | seleniumwire/server.py:114 | the mode string starts with `upstream:` and splitting the rest at the first `://` gives back the scheme and host:port (scheme without a colon) |
| `Upstream.AuthRoundTrip` | seleniumwire/server.py:116-117 | splitting the credentials string at its first colon gives back username and password (username without a colon) |
| `Engine.ExplicitOptionsFields` | seleniumwire/server.py:50-56 | the explicit keywords are exactly the six named ones; `confdir` is the storage home, `listen_host`/`listen_port` the address, `ssl_insecure` the `verify_ssl` option or true, `stream_websockets` true, `suppress_connection_errors` its option or true |
| `Engine.PassThrough` | seleniumwire/server.py:58-59 | engine key `s` is passed through iff option `mitm_` + `s` is set, and carries that option's value; no other option is forwarded |
| `Engine.PassThroughCount` | seleniumwire/server.py:59 | the pass-through map has exactly as many entries as there are `mitm_` options: stripping never folds two options into one keyword |
| `Engine.KwargsMerge` | seleniumwire/server.py:50-60 | merging keyword arguments succeeds iff the key sets are disjoint, then keeps every key with its own value; otherwise it fails with a duplicate-keyword error naming the shared keys |
| `Engine.UpstreamDisjointFromExplicit` | seleniumwire/server.py:50-57 | the upstream options never collide with the explicit keywords |
| `Engine.EngineOptionsSucceeds` | seleniumwire/server.py:50-60 | building the engine options succeeds iff the upstream proxies agree and the stripped pass-through keys are disjoint from the explicit and upstream keys |
| `Engine.UpstreamConflictReportedFirst` | seleniumwire/server.py:57-59 | conflicting upstream proxies are reported as such whatever the pass-through options, as they are evaluated first |
| `Engine.PassThroughCollisionFails` | seleniumwire/server.py:50-60 | a `mitm_` option naming an explicit keyword makes the build fail, with that keyword among the duplicates when the upstream proxies agree; it never overrides |
| `Engine.EngineOptionsContents` | seleniumwire/server.py:50-60 | on success the engine options are exactly the explicit, upstream and stripped pass-through keys, each with its value |
| `Engine.VerifySslBecomesSslInsecure` | seleniumwire/server.py:54 | with `verify_ssl` set to a bool b and no other option, `ssl_insecure` is b |
| `Engine.GetStorageArgs` | seleniumwire/server.py:83-90 | `memory_only` is true iff `request_storage` is `"memory"`; `base_dir` and `maxsize` copy their options or are None |
| `LogBridge.Log` | seleniumwire/server.py:132-135 | the message is forwarded unchanged to a method the logger has |
| `LogBridge.ReplaceAbsent` | seleniumwire/server.py:135 | `str.replace` of a pattern that does not occur leaves the string unchanged |
| `LogBridge.WarnBecomesWarning` | seleniumwire/server.py:135 | level `warn` goes to `warning` |
| `LogBridge.MethodLevelKept` | seleniumwire/server.py:135 | a level naming a logger method and not containing `warn` goes to that method |
| `LogBridge.UnknownLevelIsInfo` | seleniumwire/server.py:135 | a level naming no logger method and not containing `warn` goes to `info` |
| `LogBridge.EngineLevelMapping` | seleniumwire/server.py:135 | every level the engine emits has its destination: `warn` goes to `warning`, `alert` to `info`, and `debug`, `info`, `error` to the method of the same name |
| `LogBridge.AlertIsInfo` | seleniumwire/server.py:135 | the engine level `alert` goes to `info` |
| `LogBridge.WarningLevelIsInfo` | seleniumwire/server.py:135 | a level already spelled `warning` becomes `warninging` and goes to `info` |
| `Server.MitmProxy.constructor` | seleniumwire/server.py:23-38 | options stored, storage created from the storage arguments and the certificate extracted (in that order), scopes empty, both interceptors None |
| `Server.MitmProxy.ConfigureEngine` | seleniumwire/server.py:43-65 | called once, on a just-constructed proxy; addons registered first; of the two configuration errors, succeeds iff the engine options can be built, then the engine holds exactly them, the server is created and scopes become `['$^']` iff `disable_capture` is truthy; on failure only the addon registration happened; options, home and interceptors unchanged |
| `Server.NewMitmProxy` | seleniumwire/server.py:23-65 | of the two configuration errors, construction yields a fresh proxy iff the engine options can be built, with those options, scopes `['$^']` or `[]` by `disable_capture`, no interceptors, and storage created before the engine is configured; on failure the error is returned and storage, certificate and addons stay behind |

## Left out

- `Server.NewMitmProxy`: success and failure cover only the two configuration errors, the upstream `ValueError` and the duplicate-keyword `TypeError`. Exceptions raised by `storage.create`, `extract_cert_and_key`, `Options.update`, `ProxyConfig` or `ProxyServer` (a listen port already in use, say) are not modelled, and the model treats those calls as always succeeding.
- `Server.MitmProxy.ConfigureEngine`: the same restriction applies. It fails only with the two configuration errors, and the engine's `Options.update`, `ProxyConfig` and `ProxyServer` are treated as never raising.
- `PyValues.Value`: option values are limited to None, bool, int, str and list, and option keys are strings. Floats, dicts, tuples and other objects, and their truthiness, are not modelled. Nor is the `AttributeError` that a non-string key raises at `k.startswith`.
- The asyncio event loop, `Master`, `ProxyServer`, `ProxyConfig`, `serve_forever` and `address`: engine and network plumbing of the third-party engine; the server creation is one step of the ghost trace.
- `storage.create`, `extract_cert_and_key`: filesystem I/O in code not shown; they are steps of the ghost trace, and the home directory is a parameter.
- `shutdown`: it calls the engine's shutdown and then `storage.cleanup()` on every call; nothing about it is modelled.
- `RequestModifier`, `InterceptRequestHandler`, `addons.default_addons` and the per-request scope check, interception and storage pipeline: not part of this model; addon registration is one step of the trace.
- `get_upstream_proxy`: its result is an input record, with scheme and host:port as strings and the credentials as optional strings.
- The engine's own rejection of option names it does not know (`Options.update`): engine behaviour, not part of this model.
- `Engine.KwargsMerge`: Python's `TypeError` names only the first duplicate keyword in iteration order; the model reports the set of all of them.
- `LogBridge.Log`: `getattr` can also return attributes of the logger that are not one-message logging methods (`log`, `name`, …); the model treats every name outside the eight logging methods as absent, falling back to `info`. The actual write to the logging handlers is not modelled.
- The scope pattern `'$^'` is an opaque string; its regular-expression meaning is not modelled.
- Python `str()` of values other than strings and None (an int username, say) is not modelled: credentials are optional strings.
