# Nacos registry client and Sanic plugin, modelled in Dafny

This project models `config_helper/nacos.py`, a small client for the Nacos
configuration and service registry, together with the Sanic extension that
uses it at server start-up and shut-down.

- `wrappers.dfy` (module `Wrappers`) holds `Option` and `Result`.
- `pyvalue.dfy` (module `PyValue`) models the Python values that travel in
  requests and replies. It also models the four Python operations the code
  depends on, each with the exception Python raises:
  - truthiness (`if x:`);
  - membership (`x in y`);
  - string-key subscription (`y['k']`);
  - iteration (`for e in y`).
- `nacos_client.dfy` (module `NacosClient`) models the class `NacosClient`:
  - Every endpoint method builds a request dict and hands it to `call_api`.
    Each builder is a method that returns that dict as a `Request` value.
  - The builders share one inclusion policy: an optional argument's key is
    set only when the argument is truthy. The exception is publish_config's
    `type`, which is sent iff the content is not a str, whatever its
    truthiness. `WithTruthy` states the policy once, and lemmas say what a
    dict built that way contains.
  - `__responseHa` and `call_api` are modelled with the two transports as
    parameters: HTTP/3 over QUIC when `ssl` is set, httpx otherwise.
- `nacos_plugin.dfy` (module `NacosPlugin`) models the extension's
  procedures: `create_nacose_service`, `create_nacose_instance` with its
  heartbeat loop `nacos_beat`, `create_nacose_config` and `cancellation_nacos`.
  - Each procedure runs against a script `replies: nat -> CallOutcome`, whose
    `n`-th element is what the procedure's `n`-th `call_api` hands back.
  - Each procedure is an imperative method that records the requests it
    builds, in order.
  - The service, instance, heartbeat and config methods are each proved equal
    to a specification function that computes the outcome and the number of
    calls. `CancellationNacos` makes a single call, so its contract states the
    outcome directly.
  - Lemmas over those functions state when each `raise` fires.

Behaviour kept as the code has it:
- `create_nacose_service` looks the service up with the namespace as the
  service name and the service name as the namespace
  (config_helper/nacos.py:1001). It then creates the service under the right
  names.
- The group argument of `get_service` is passed by keyword and arrives
  intact.

## Model

| member | source | states |
|---|---|---|
| PyValue.GetItem | config_helper/nacos.py:989-990 | A dict subscript yields the bound value and raises `KeyError(key)` for a missing key. Any non-dict raises `TypeError`. Success happens exactly when the key is bound. |
| PyValue.LookupUnique | config_helper/nacos.py:989-990 | In a dict with unique keys, subscripting by any entry's key yields that entry's value. |
| PyValue.Iterate | config_helper/nacos.py:989 | `for` visits exactly the items of a list or tuple, the keys of a dict in insertion order (`Keys`), and the one-character strs of a str (`Chars`). Every other value raises `TypeError`. The visited sequence is empty iff the value is falsy. |
| PyValue.In | config_helper/nacos.py:1002-1004 | `needle in x` means substring occurrence in a str, a key in a dict, or an equal element in a list or tuple. `None`, bools, ints and floats raise `TypeError`. |
| PyValue.ContainsIff | config_helper/nacos.py:1002 | The recursive substring search is true iff some position holds the needle. |
| PyValue.InFalseRaises | config_helper/nacos.py:1002 | A membership test on the failure sentinel `False` raises `TypeError`. |
| NacosClient.SetItem | config_helper/nacos.py:937-938 | `data[section][key] = v` fails iff the section is missing, with `KeyError(section name)`. Otherwise the new request is the old one with only that key of that section set: method, url, timeout and the other sections are unchanged. |
| NacosClient.WithTruthyRequired | config_helper/nacos.py:292-301 | Every required key of a builder's literal is sent, with its given value, whatever the optional arguments are. |
| NacosClient.WithTruthyOptional | config_helper/nacos.py:302-315 | An optional argument's key is sent iff the argument is truthy, and then with the argument's value. |
| NacosClient.WithTruthyOnly | config_helper/nacos.py:292-315 | No key is sent other than the required keys and the optional arguments' keys. |
| NacosClient.FalsyIsOmitted | config_helper/nacos.py:302-315 | An explicit falsy argument (`False`, `0`, `""`, `{}`) gives the same dict as leaving it `None`. |
| NacosClient.WithTruthyExtend | config_helper/nacos.py:302-303 | One guarded insert `if v: d[k] = v` moves the dict from `WithTruthy(req, opt)` to `WithTruthy(req, opt + [(k, v)])`. |
| NacosClient.UpdateIsUnion | config_helper/nacos.py:631-632 | The guarded insert of a JSON-encoded selector equals the union with `EncodedIfTruthy`. |
| NacosClient.ListeningConfigsParts | config_helper/nacos.py:156-159 | Slices of the listener key recover the data id, the group, the closing `^1`, and the tenant (or the MD5 when there is no tenant). |
| NacosClient.ListenerConfig | config_helper/nacos.py:128-165 | POST to `/listener` with the listener key as data and the timeout as the `Long-Pulling-Timeout` header. |
| NacosClient.PublishConfig | config_helper/nacos.py:167-207 | A str content is sent unchanged and anything else JSON-encoded. `type` is sent iff the content is not a str. `tenant` is sent iff it is truthy. |
| NacosClient.GetConfig | config_helper/nacos.py:93-126 | GET on the config URL. `dataId` and `group` are always sent, `tenant` only when truthy. |
| NacosClient.DeleteConfig | config_helper/nacos.py:209-242 | DELETE on the config URL with the same key policy as get_config. |
| NacosClient.RegisterInstance | config_helper/nacos.py:244-316 | POST of ip, port, serviceName and ephemeral. The seven optional keys are included per the truthiness policy. |
| NacosClient.CancellationInstance | config_helper/nacos.py:318-369 | DELETE with serviceName, ip and port. namespaceId, groupName, clusterName and ephemeral are sent only when truthy, so `ephemeral=False` is never sent. |
| NacosClient.UpdateInstance | config_helper/nacos.py:371-437 | PUT of the instance keys. Seven optional keys follow the truthiness policy, in the code's order. |
| NacosClient.GetInstance | config_helper/nacos.py:439-484 | GET on `/list` with serviceName. The other four keys are sent only when truthy. |
| NacosClient.DetailInstance | config_helper/nacos.py:486-542 | GET of one instance. The five optional keys follow the truthiness policy. |
| NacosClient.SendBeat | config_helper/nacos.py:544-581 | The call raises `TypeError` iff the group is truthy and not a str, because the log line concatenates it. Otherwise it sends a PUT to `/beat` with the JSON-encoded beat, and groupName only when truthy. |
| NacosClient.CreateService | config_helper/nacos.py:583-633 | POST with serviceName and truthy optional keys. A truthy selector is sent JSON-encoded. |
| NacosClient.DeleteService | config_helper/nacos.py:635-670 | DELETE with serviceName. namespaceId and groupName are sent only when truthy. |
| NacosClient.UpdateService | config_helper/nacos.py:672-722 | PUT with the same keys as create_service, as params. A truthy selector is sent JSON-encoded. |
| NacosClient.GetService | config_helper/nacos.py:724-759 | GET with serviceName. namespaceId and groupName are sent only when truthy. |
| NacosClient.GetServiceList | config_helper/nacos.py:761-799 | GET on `/list` with page number and size. namespaceId and groupName are sent only when truthy. |
| NacosClient.UpdateInstanceHealth | config_helper/nacos.py:801-850 | PUT to the health URL with the instance keys and the health flag. Three optional keys follow the truthiness policy. |
| NacosClient.GetNamespace | config_helper/nacos.py:852-867 | GET on the namespace URL with no section at all. |
| NacosClient.CreateNamespace | config_helper/nacos.py:869-903 | POST of name and id. The description is sent only when truthy. |
| NacosClient.UpdateNamespace | config_helper/nacos.py:905-939 | As written: a non-empty description raises `KeyError('params')`, exactly. An empty one gives a PUT with name and id. |
| NacosClient.UpdateNamespaceIntended | config_helper/nacos.py:929-938 | With the description written into the `data` section: the call never raises, and the description is sent iff it is non-empty. |
| NacosClient.DeleteNamespace | config_helper/nacos.py:941-961 | DELETE with the namespace id as data. |
| NacosClient.CallApi | config_helper/nacos.py:32-91 | Only the httpx path adds the timeout. Any transport exception becomes `(False, -1)`. httpx yields the parsed JSON and the elapsed seconds, or the raw text and `-1` when the body does not parse. QUIC yields the first and the last element of the reply. The QUIC log line escapes the `try` exactly when it cannot read `.data` of every event in the first element: `IndexError` for an empty reply, `TypeError` for a non-iterable first element, `AttributeError('data')` for an event without the attribute. Every returned pair is a truthy tuple. |
| NacosPlugin.SearchNamespaces | config_helper/nacos.py:987-994 | The search only fails with `TypeError` or `KeyError('namespace')`. |
| NacosPlugin.NamespaceListed | config_helper/nacos.py:989-994 | Searching `res[0]['data']` fails only with `TypeError` or a `KeyError`. |
| NacosPlugin.SearchFinds | config_helper/nacos.py:987-994 | Over a listing whose entries all have a `namespace` key, the search answers exactly whether the namespace is listed. |
| NacosPlugin.SearchStopsAtFirstMatch | config_helper/nacos.py:990-992 | The search breaks at the first match: entries after it do not affect the result. |
| NacosPlugin.SearchListing | config_helper/nacos.py:987-994 | The loop with its `break` computes the same result as the search function. |
| NacosPlugin.EnsureNamespace | config_helper/nacos.py:985-1000 | The outcome and call count equal the namespace step. The first request lists namespaces. A second request, if any, creates the configured namespace with the app name as description. |
| NacosPlugin.EnsureService | config_helper/nacos.py:1001-1005 | The outcome and call count equal the service step. The lookup passes the namespace and service name swapped. The creation request carries the configured names and group. |
| NacosPlugin.CreateNacosService | config_helper/nacos.py:976-1006 | The outcome equals `ServiceStartup`. All namespace requests come before all service requests. |
| NacosPlugin.GetNamespaceErrorIff | config_helper/nacos.py:986-997 | "get namespace error" is raised iff the listing call returns a falsy payload. |
| NacosPlugin.CreateNamespaceIffAbsent | config_helper/nacos.py:997-998 | create_namespace is issued iff the configured namespace is not listed. |
| NacosPlugin.CreateNamespaceErrorIff | config_helper/nacos.py:997-1000 | "create namespace error" is raised iff create_namespace was issued and returned a falsy payload. |
| NacosPlugin.ServiceLookupFailureRaises | config_helper/nacos.py:1001-1002 | A failed get_service makes the membership test on `False` raise `TypeError` after one call. |
| NacosPlugin.CreateServiceIff | config_helper/nacos.py:1002-1005 | create_service is issued iff "service not found" is in the payload. "create service error" is raised iff "ok" is then absent. |
| NacosPlugin.BeatTaskAsWritten | config_helper/nacos.py:1057-1058 | The scheduled coroutine's `nacos_client` parameter is bound to something other than a client. |
| NacosPlugin.BeatTaskIntended | config_helper/nacos.py:1060-1067 | With the client passed through, the receiver is a client. |
| NacosPlugin.CreateNacosInstance | config_helper/nacos.py:1008-1040 | Registers an enabled, healthy instance. If "ok" is absent it deregisters and raises. Otherwise the task table gains the heartbeat under its configured name, and is left unchanged on any exception. |
| NacosPlugin.InstanceRegisteredIff | config_helper/nacos.py:1015-1033 | The instance is kept iff "ok" is in the registration payload. It is deregistered iff the payload is a container without "ok", and the exception then carries the deregistration payload. |
| NacosPlugin.RegistrationFailureRaises | config_helper/nacos.py:1015-1023 | A registration that failed in transport is not rolled back: `'ok' in False` raises `TypeError` before any deregistration. |
| NacosPlugin.NacosBeat | config_helper/nacos.py:1060-1070 | The loop equals `BeatsFrom` over `ticks` iterations. Every request it sends is the heartbeat request for the task's arguments. |
| NacosPlugin.BeatsAllReturned | config_helper/nacos.py:1068-1070 | With a real client and a loggable group, the loop survives all iterations iff every call returns. It never makes more calls than iterations. |
| NacosPlugin.AsWrittenNeverBeats | config_helper/nacos.py:1057-1070 | As scheduled, the first iteration raises `AttributeError` and no beat is sent. |
| NacosPlugin.IntendedBeatsEveryTick | config_helper/nacos.py:1060-1070 | With the client passed through, one beat per iteration is sent while the calls return. |
| NacosPlugin.EnsureConfig | config_helper/nacos.py:1082-1095 | The outcome equals `ConfigStep`. It fetches the entry, and publishes the settings dict as JSON in the namespace when the entry is absent. |
| NacosPlugin.CreateNacosConfig | config_helper/nacos.py:1073-1111 | The outcome equals `ConfigStartup`. Redis is fetched (and maybe published) first, then mysql, each with its own settings dict. |
| NacosPlugin.ConfigPublishedIff | config_helper/nacos.py:1083-1084 | An entry is published iff its fetched payload contains "config data not exist". |
| NacosPlugin.ConfigErrorNeverRaised | config_helper/nacos.py:1094-1095 | The guard `if not res` on a two-element tuple is dead, for both entries (also at 1110-1111): "create config error" is never raised. |
| NacosPlugin.FailedPublishAccepted | config_helper/nacos.py:1084-1095 | A publish that failed in transport counts as success as written, and raises with the intended guard. |
| NacosPlugin.ConfigErrorIntendedIff | config_helper/nacos.py:1094-1095 | With the intended guard, "create config error" is raised iff the publish payload is falsy. The call count is unchanged. |
| NacosPlugin.CancellationNacos | config_helper/nacos.py:1123-1142 | One deregistration request is sent. The outcome is `Ok` unless the call raised. The heartbeat task leaves the table exactly when the procedure completes, and an unknown task name is tolerated. |

## Findings

| source | as written | input that shows it | evidently intended | confidence | as-written member | corrected member |
|---|---|---|---|---|---|---|
| config_helper/nacos.py:1057-1058 | `nacos_beat(serviceName, beat, groupName, ephemeral)` fills the parameters `nacos_client` and `groupName` of the signature at 1060-1067 positionally | any configuration, first loop iteration: `send_beat` is looked up on the group string, which raises `AttributeError` | pass the client, then `groupName` and `ephemeral` in their own places | high, not executed | NacosPlugin.AsWrittenNeverBeats | NacosPlugin.IntendedBeatsEveryTick |
| config_helper/nacos.py:937-938 | the description is written into `data["params"]`, which the literal never creates | `update_namespace("n", "i", "d")` raises `KeyError('params')` | write it into `data["data"]`, as create_namespace does | high, not executed | NacosClient.UpdateNamespace | NacosClient.UpdateNamespaceIntended |
| config_helper/nacos.py:1094-1095 | `if not res` tests the `(payload, latency)` tuple, which is never empty | a publish whose transport fails returns `(False, -1)`, and the entry is taken as published | `if not res[0]`, like every other guard in the plugin | medium, not executed | NacosPlugin.FailedPublishAccepted | NacosPlugin.ConfigErrorIntendedIff |

The plugin procedures keep the as-written behaviour of the source:
`CreateNacosInstance` schedules `BeatTaskAsWritten`, and `EnsureConfig` uses
the tuple guard. The corrected definitions sit next to them, with their
properties proved.

## Left out

- CallApi: the QUIC/HTTP3 and httpx transports are parameters, and whether an event carries a `.data` attribute is the parameter `hasData`. The model does not include connection set-up, TLS, session tickets or QUIC logging.
- Each procedure's calls come from the script `replies`, so the registry server's behaviour is not modelled.
- Logging is left out, except where a log line raises. Parameters annotated `Optional[str]` are typed `Option<string>`, so their log-line concatenation cannot fail in the model. The exception is send_beat's `groupName`, which `SendBeat` types as any `Value` and whose concatenation raises `TypeError` for a truthy non-str, because the mis-bound heartbeat task passes a bool there.
- JSON encoding is the uninterpreted parameter `dumps`. Floats are opaque; only their truthiness is modelled.
- Request sections are maps, so the order of keys inside a request dict is not modelled. Dict values in replies keep their order.
- NacosBeat: the infinite `while True` loop and its five-second `asyncio.sleep` are cut off after `ticks` iterations.
- Async scheduling, Sanic's `add_task` and `cancel_task`, and a duplicate task name are not modelled. The task table is a map from task name to task.
- `startup`, `included` and `set_nacos_dependency` only register hooks and inject the client into Sanic, so they are not modelled. `get_local_ip()` and the `setting` module become fields of `AppConfig` or constants; the host is the empty `BASE_HOST`.
- CreateNacosService: it ends at the service step, because its call to `create_nacose_instance` is commented out in the source (config_helper/nacos.py:1006). `CreateNacosInstance` is modelled on its own.
- GetNamespaceErrorIff, CreateNamespaceErrorIff, CreateServiceIff, ConfigErrorNeverRaised and ConfigErrorIntendedIff: these assume that only the log line's `IndexError`, `TypeError` or `AttributeError('data')` escapes `call_api`. `CallApi` guarantees this (`EscapesFromCallApi`).
