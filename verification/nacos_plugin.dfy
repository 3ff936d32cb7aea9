/**
  The start-up and shut-down procedures of the Sanic extension `NacosPlugin`
  (config_helper/nacos.py:963-1145): make sure the namespace and the service
  exist, register the instance and start its heartbeat, share the Redis and
  MySQL settings as configuration entries, and deregister on shutdown.

  The registry is reduced to a script: `replies(n)` is what the `n`-th
  `call_api` of a procedure hands back. Each procedure returns its outcome and
  the trace of request dicts it built, in order. For create_nacose_service,
  create_nacose_instance, nacos_beat and create_nacose_config a spec function
  computes the same outcome and the number of calls, as a `Stage`;
  cancellation_nacos makes one call and its contract states the outcome
  directly.
 */
module NacosPlugin {
  import opened Wrappers
  import opened PyValue
  import opened NacosClient

  /** The `app.config` entries (and the local address) the procedures read. */
  datatype AppConfig = AppConfig(
    nacosNamespace: string,
    nacosServiceName: string,
    nacosGroup: string,
    appName: string,
    port: int,
    nacosEphemeral: bool,
    heartbeatTask: string,
    localIp: string,
    redisHost: Value, redisPort: Value, redisPassword: Value,
    dbHost: Value, dbPort: Value, dbUser: Value, dbPassword: Value, dbName: Value)

  /** How a procedure ends: normally, or with the exception it lets escape. */
  datatype Outcome = Ok | Raised(error: PyError)

  /** A procedure's result as its specification computes it: how many `call_api`s it made, and how it ended. */
  datatype Stage = Stage(calls: nat, status: Outcome)

  /** `res[0]` of one `call_api`, or the exception that escaped from it. */
  function Payload(reply: CallOutcome): Result<Value, PyError> {
    match reply
    case Returned(result) => Success(result.payload)
    case Escaped(e) => Failure(e)
  }

  // ---------------------------------------------------------------------------
  // create_nacose_service
  // ---------------------------------------------------------------------------

  /**
    The search loop of create_nacose_service over the listed namespaces:
    `Success(true)` at the first entry whose `namespace` equals `ns`, the
    exception of the first entry that cannot be subscripted before that, and
    `Success(false)` when the list runs out.
   */
  function SearchNamespaces(entries: seq<Value>, ns: string): (r: Result<bool, PyError>)
    ensures r.Failure? ==> r.error == TypeError || r.error == KeyError("namespace")
  {
    if entries == [] then Success(false)
    else match GetItem(entries[0], "namespace")
      case Failure(e) => Failure(e)
      case Success(name) => if name == PyStr(ns) then Success(true) else SearchNamespaces(entries[1..], ns)
  }

  /** `res[0]['data']`, iterated and searched for `ns`. */
  function NamespaceListed(payload: Value, ns: string): (r: Result<bool, PyError>)
    ensures r.Failure? ==> r.error == TypeError || r.error.KeyError?
  {
    var listing :- GetItem(payload, "data");
    var entries :- Iterate(listing);
    SearchNamespaces(entries, ns)
  }

  /** Every listed entry is a dict with a `namespace` key. */
  predicate WellFormedListing(entries: seq<Value>) {
    forall i :: 0 <= i < |entries| ==> GetItem(entries[i], "namespace").Success?
  }

  /** Some listed entry names `ns`. */
  predicate Listed(entries: seq<Value>, ns: string)
    requires WellFormedListing(entries)
  {
    exists i :: 0 <= i < |entries| && GetItem(entries[i], "namespace").value == PyStr(ns)
  }

  /** Over a well-formed listing the search answers exactly "is `ns` listed". */
  lemma {:induction false} SearchFinds(entries: seq<Value>, ns: string)
    requires WellFormedListing(entries)
    ensures SearchNamespaces(entries, ns) == Success(Listed(entries, ns))
    decreases |entries|
  {
    if entries != [] {
      assert GetItem(entries[0], "namespace").Success?;
      var tail := entries[1..];
      assert WellFormedListing(tail) by {
        forall i | 0 <= i < |tail| ensures GetItem(tail[i], "namespace").Success? {
          assert tail[i] == entries[i + 1];
        }
      }
      SearchFinds(tail, ns);
      if GetItem(entries[0], "namespace").value != PyStr(ns) {
        if Listed(entries, ns) {
          var i :| 0 <= i < |entries| && GetItem(entries[i], "namespace").value == PyStr(ns);
          assert i > 0 && tail[i - 1] == entries[i];
        }
        if Listed(tail, ns) {
          var i :| 0 <= i < |tail| && GetItem(tail[i], "namespace").value == PyStr(ns);
          assert tail[i] == entries[i + 1];
        }
      }
    }
  }

  /** The search stops at the first match: nothing after it is inspected, however malformed. */
  lemma {:induction false} SearchStopsAtFirstMatch(entries: seq<Value>, ns: string, k: nat)
    requires k < |entries| && GetItem(entries[k], "namespace") == Success(PyStr(ns))
    ensures SearchNamespaces(entries, ns) == SearchNamespaces(entries[..k + 1], ns)
    ensures SearchNamespaces(entries, ns).Success? ==> SearchNamespaces(entries, ns).value
    decreases k
  {
    var prefix := entries[..k + 1];
    assert prefix[0] == entries[0];
    if k > 0 {
      SearchStopsAtFirstMatch(entries[1..], ns, k - 1);
      assert entries[1..][..k] == prefix[1..];
    }
  }

  /** The namespace step: list, search, and create the namespace when it is missing. */
  function NamespaceStep(cfg: AppConfig, replies: nat -> CallOutcome): Stage {
    match Payload(replies(0))
    case Failure(e) => Stage(1, Raised(e))
    case Success(listed) =>
      if !Truthy(listed) then Stage(1, Raised(Exception("get namespace error")))
      else match NamespaceListed(listed, cfg.nacosNamespace)
        case Failure(e) => Stage(1, Raised(e))
        case Success(exists_) =>
          if exists_ then Stage(1, Ok)
          else match Payload(replies(1))
            case Failure(e) => Stage(2, Raised(e))
            case Success(created) =>
              if Truthy(created) then Stage(2, Ok) else Stage(2, Raised(Exception("create namespace error")))
  }

  /** The service step, from call `start` on: fetch the service, and create it when it is reported missing. */
  function ServiceStep(replies: nat -> CallOutcome, start: nat): Stage {
    match Payload(replies(start))
    case Failure(e) => Stage(1, Raised(e))
    case Success(fetched) =>
      match In("service not found", fetched)
      case Failure(e) => Stage(1, Raised(e))
      case Success(missing) =>
        if !missing then Stage(1, Ok)
        else match Payload(replies(start + 1))
          case Failure(e) => Stage(2, Raised(e))
          case Success(created) =>
            match In("ok", created)
            case Failure(e) => Stage(2, Raised(e))
            case Success(ok) => Stage(2, if ok then Ok else Raised(Exception("create service error")))
  }

  /** create_nacose_service as a function of the script: the namespace step, then the service step. */
  function ServiceStartup(cfg: AppConfig, replies: nat -> CallOutcome): Stage {
    var namespace := NamespaceStep(cfg, replies);
    if namespace.status.Raised? then namespace
    else
      var service := ServiceStep(replies, namespace.calls);
      Stage(namespace.calls + service.calls, service.status)
  }

  /** The search loop of create_nacose_service (config_helper/nacos.py:987-994) over a truthy listing payload. */
  method SearchListing(listed: Value, ns: string) returns (r: Result<bool, PyError>)
    ensures r == NamespaceListed(listed, ns)
  {
    var listing: Value;
    match GetItem(listed, "data") {
      case Failure(e) => return Failure(e);
      case Success(v) => listing := v;
    }
    var entries: seq<Value>;
    match Iterate(listing) {
      case Failure(e) => return Failure(e);
      case Success(es) => entries := es;
    }
    var namespaceExists := false;
    var i := 0;
    while i < |entries|
      invariant 0 <= i <= |entries|
      invariant SearchNamespaces(entries[i..], ns) == SearchNamespaces(entries, ns)
      invariant !namespaceExists
    {
      assert entries[i..][0] == entries[i] && entries[i..][1..] == entries[i + 1..];
      var name: Value;
      match GetItem(entries[i], "namespace") {
        case Failure(e) => return Failure(e);
        case Success(v) => name := v;
      }
      if name == PyStr(ns) {
        namespaceExists := true;
        break;
      }
      i := i + 1;
    }
    r := Success(namespaceExists);
  }

  /** The namespace step of create_nacose_service (config_helper/nacos.py:985-999). */
  method EnsureNamespace(cfg: AppConfig, replies: nat -> CallOutcome) returns (outcome: Outcome, calls: seq<Request>)
    ensures Stage(|calls|, outcome) == NamespaceStep(cfg, replies)
    ensures 1 <= |calls| && calls[0] == Request(GET, BASE_HOST + NAMESPACE_BASE_URL, map[], None)
    ensures |calls| == 2 ==> calls[1] == Request(POST, BASE_HOST + NAMESPACE_BASE_URL, map[Data := WithTruthy(
              map[NamespaceName := PyStr(cfg.nacosNamespace), CustomNamespaceId := PyStr(cfg.nacosNamespace)],
              [(NamespaceDesc, PyStr(cfg.appName))])], None)
  {
    var listRequest := GetNamespace();
    calls := [listRequest];
    var listed: Value;
    match replies(0) {
      case Escaped(e) => return Raised(e), calls;
      case Returned(result) => listed := result.payload;
    }
    var namespaceExists: bool;
    if Truthy(listed) {
      var found := SearchListing(listed, cfg.nacosNamespace);
      match found {
        case Failure(e) => return Raised(e), calls;
        case Success(b) => namespaceExists := b;
      }
    } else {
      return Raised(Exception("get namespace error")), calls;
    }
    if !namespaceExists {
      var createRequest := CreateNamespace(cfg.nacosNamespace, cfg.nacosNamespace, Some(cfg.appName));
      calls := calls + [createRequest];
      match replies(1) {
        case Escaped(e) => return Raised(e), calls;
        case Returned(result) =>
          if !Truthy(result.payload) {
            return Raised(Exception("create namespace error")), calls;
          }
      }
    }
    outcome := Ok;
  }

  /**
    The service step of create_nacose_service (config_helper/nacos.py:1001-1005).
    The request to `get_service` passes the namespace as the service name and
    the service name as the namespace, as the code does.
   */
  method EnsureService(cfg: AppConfig, replies: nat -> CallOutcome, start: nat, dumps: Value -> string)
    returns (outcome: Outcome, calls: seq<Request>)
    ensures Stage(|calls|, outcome) == ServiceStep(replies, start)
    ensures 1 <= |calls| && calls[0] == Request(GET, BASE_HOST + SERVICE_BASE_URL, map[Params := WithTruthy(
              map[ServiceName := PyStr(cfg.nacosNamespace)],
              [(NamespaceId, PyStr(cfg.nacosServiceName)), (GroupName, PyStr(cfg.nacosGroup))])], None)
    ensures |calls| == 2 ==> calls[1] == Request(POST, BASE_HOST + SERVICE_BASE_URL, map[Data := WithTruthy(
              map[ServiceName := PyStr(cfg.nacosServiceName)],
              [(NamespaceId, PyStr(cfg.nacosNamespace)), (ProtectThreshold, PyNone),
               (GroupName, PyStr(cfg.nacosGroup)), (Metadata, PyNone)])], None)
  {
    var lookupRequest := GetService(cfg.nacosNamespace, Some(cfg.nacosServiceName), Some(cfg.nacosGroup));
    calls := [lookupRequest];
    var missing: bool;
    match replies(start) {
      case Escaped(e) => return Raised(e), calls;
      case Returned(result) =>
        match In("service not found", result.payload) {
          case Failure(e) => return Raised(e), calls;
          case Success(b) => missing := b;
        }
    }
    if missing {
      var createRequest := CreateService(cfg.nacosServiceName, Some(cfg.nacosNamespace), PyNone,
                                         Some(cfg.nacosGroup), None, PyNone, dumps);
      ghost var sent := WithTruthy(map[ServiceName := PyStr(cfg.nacosServiceName)],
        [(NamespaceId, PyStr(cfg.nacosNamespace)), (ProtectThreshold, PyNone),
         (GroupName, PyStr(cfg.nacosGroup)), (Metadata, PyNone)]);
      assert sent + EncodedIfTruthy(Selector, PyNone, dumps) == sent;
      calls := calls + [createRequest];
      match replies(start + 1) {
        case Escaped(e) => return Raised(e), calls;
        case Returned(result) =>
          match In("ok", result.payload) {
            case Failure(e) => return Raised(e), calls;
            case Success(ok) =>
              if !ok {
                return Raised(Exception("create service error")), calls;
              }
          }
      }
    }
    outcome := Ok;
  }

  /**
    create_nacose_service at config_helper/nacos.py:976-1005: the namespace
    step, then, only once it has completed, the service step.
   */
  method CreateNacosService(cfg: AppConfig, replies: nat -> CallOutcome, dumps: Value -> string)
    returns (outcome: Outcome, trace: seq<Request>)
    ensures Stage(|trace|, outcome) == ServiceStartup(cfg, replies)
    ensures 1 <= |trace| && trace[0].url == BASE_HOST + NAMESPACE_BASE_URL
    // no service request precedes the end of the namespace step
    ensures forall i :: 0 <= i < |trace| && i < NamespaceStep(cfg, replies).calls ==>
              trace[i].url == BASE_HOST + NAMESPACE_BASE_URL
    ensures forall i :: NamespaceStep(cfg, replies).calls <= i < |trace| ==>
              trace[i].url == BASE_HOST + SERVICE_BASE_URL
  {
    var namespaceCalls, serviceCalls: seq<Request>;
    outcome, namespaceCalls := EnsureNamespace(cfg, replies);
    trace := namespaceCalls;
    if outcome.Raised? {
      return;
    }
    outcome, serviceCalls := EnsureService(cfg, replies, |namespaceCalls|, dumps);
    trace := trace + serviceCalls;
  }

  /** "get namespace error" is raised exactly when the listing call hands back a falsy payload. */
  lemma GetNamespaceErrorIff(cfg: AppConfig, replies: nat -> CallOutcome)
    requires forall n :: EscapesFromCallApi(replies(n))
    ensures ServiceStartup(cfg, replies).status == Raised(Exception("get namespace error")) <==>
            replies(0).Returned? && !Truthy(replies(0).result.payload)
  {
  }

  /**
    Over a well-formed listing, create_namespace is issued exactly when no
    listed entry names the configured namespace.
   */
  lemma CreateNamespaceIffAbsent(cfg: AppConfig, replies: nat -> CallOutcome, entries: seq<Value>)
    requires replies(0).Returned? && Truthy(replies(0).result.payload)
    requires GetItem(replies(0).result.payload, "data").Success?
    requires Iterate(GetItem(replies(0).result.payload, "data").value) == Success(entries)
    requires WellFormedListing(entries)
    ensures NamespaceStep(cfg, replies).calls == 2 <==> !Listed(entries, cfg.nacosNamespace)
  {
    SearchFinds(entries, cfg.nacosNamespace);
  }

  /** "create namespace error" is raised exactly when create_namespace was issued and its payload is falsy. */
  lemma CreateNamespaceErrorIff(cfg: AppConfig, replies: nat -> CallOutcome)
    requires forall n :: EscapesFromCallApi(replies(n))
    ensures ServiceStartup(cfg, replies).status == Raised(Exception("create namespace error")) <==>
            NamespaceStep(cfg, replies).calls == 2 && replies(1).Returned? && !Truthy(replies(1).result.payload)
  {
  }

  /**
    The failure pair from get_service does not lead to create_service: the
    membership test on `False` raises `TypeError`.
   */
  lemma ServiceLookupFailureRaises(replies: nat -> CallOutcome, start: nat)
    requires replies(start) == Returned(FAILURE)
    ensures ServiceStep(replies, start) == Stage(1, Raised(TypeError))
  {
    InFalseRaises("service not found");
  }

  /**
    create_service is issued exactly when "service not found" occurs in the
    get_service payload, and "create service error" is raised exactly when
    "ok" then does not occur in the create_service payload.
   */
  lemma CreateServiceIff(replies: nat -> CallOutcome, start: nat)
    requires forall n :: EscapesFromCallApi(replies(n))
    ensures ServiceStep(replies, start).calls == 2 <==>
            replies(start).Returned? && In("service not found", replies(start).result.payload) == Success(true)
    ensures ServiceStep(replies, start).status == Raised(Exception("create service error")) <==>
            ServiceStep(replies, start).calls == 2 &&
            replies(start + 1).Returned? && In("ok", replies(start + 1).result.payload) == Success(false)
  {
  }

  // ---------------------------------------------------------------------------
  // create_nacose_instance and the heartbeat
  // ---------------------------------------------------------------------------

  /** What `nacos_beat`'s `nacos_client` parameter is bound to: a client, or some other value. */
  datatype Receiver = Client | NotAClient(bound: Value)

  /** A scheduled `nacos_beat` coroutine with its parameters as bound. */
  datatype BeatTask = BeatTask(serviceName: string, beat: Value, receiver: Receiver, groupName: Value, ephemeral: Value)

  /** The heartbeat body `{"ip": ..., "port": ...}`. */
  function BeatBody(cfg: AppConfig): Value {
    PyDict([("ip", PyStr(cfg.localIp)), ("port", PyInt(cfg.port))])
  }

  /**
    The coroutine that send_nacos_beat (config_helper/nacos.py:1057-1058)
    schedules: its four arguments fill nacos_beat's first four positional
    parameters, so `nacos_client` receives the group name, `groupName`
    receives the ephemeral flag and `ephemeral` keeps its default `False`.
   */
  function BeatTaskAsWritten(cfg: AppConfig): (t: BeatTask)
    ensures t.receiver.NotAClient?
  {
    BeatTask(cfg.nacosServiceName, BeatBody(cfg), NotAClient(PyStr(cfg.nacosGroup)),
             PyBool(cfg.nacosEphemeral), PyBool(false))
  }

  /** The coroutine as evidently intended: the client is passed through, and group and flag keep their places. */
  function BeatTaskIntended(cfg: AppConfig): (t: BeatTask)
    ensures t.receiver.Client?
  {
    BeatTask(cfg.nacosServiceName, BeatBody(cfg), Client, PyStr(cfg.nacosGroup), PyBool(cfg.nacosEphemeral))
  }

  /** create_nacose_instance as a function of the script. */
  function InstanceStartup(cfg: AppConfig, replies: nat -> CallOutcome): Stage {
    match Payload(replies(0))
    case Failure(e) => Stage(1, Raised(e))
    case Success(registered) =>
      match In("ok", registered)
      case Failure(e) => Stage(1, Raised(e))
      case Success(ok) =>
        if ok then Stage(1, Ok)
        else match Payload(replies(1))
          case Failure(e) => Stage(2, Raised(e))
          case Success(cancelled) => Stage(2, Raised(CreateInstanceError(cancelled)))
  }

  /** The deregistration request both create_nacose_instance and cancellation_nacos send. */
  predicate IsCancellation(cfg: AppConfig, r: Request) {
    r == Request(DELETE, BASE_HOST + INSTANCE_BASE_URL, map[Params := WithTruthy(
      map[ServiceName := PyStr(cfg.nacosServiceName), Ip := PyStr(cfg.localIp), Port := PyInt(cfg.port)],
      [(NamespaceId, PyStr(cfg.nacosNamespace)), (GroupName, PyStr(cfg.nacosGroup)),
       (ClusterName, PyNone), (Ephemeral, PyBool(cfg.nacosEphemeral))])], None)
  }

  /**
    create_nacose_instance at config_helper/nacos.py:1008-1040: register the
    instance enabled and healthy; when "ok" is not in the reply, deregister it
    and raise with the deregistration payload; otherwise schedule the
    heartbeat task under its configured name. `tasks` is the application's
    table of named background tasks.
   */
  method CreateNacosInstance(cfg: AppConfig, replies: nat -> CallOutcome, tasks: map<string, BeatTask>)
    returns (outcome: Outcome, trace: seq<Request>, tasks': map<string, BeatTask>)
    ensures Stage(|trace|, outcome) == InstanceStartup(cfg, replies)
    ensures 1 <= |trace| && trace[0] == Request(POST, BASE_HOST + INSTANCE_BASE_URL, map[Data := WithTruthy(
              map[Ip := PyStr(cfg.localIp), Port := PyInt(cfg.port), ServiceName := PyStr(cfg.nacosServiceName),
                  Ephemeral := PyBool(cfg.nacosEphemeral)],
              [(NamespaceId, PyStr(cfg.nacosNamespace)), (Weight, PyNone), (Enabled, PyBool(true)),
               (Healthy, PyBool(true)), (Metadata, PyNone), (ClusterName, PyNone),
               (GroupName, PyStr(cfg.nacosGroup))])], None)
    ensures |trace| == 2 ==> IsCancellation(cfg, trace[1])
    ensures tasks' == if outcome.Ok? then tasks[cfg.heartbeatTask := BeatTaskAsWritten(cfg)] else tasks
  {
    tasks' := tasks;
    var registerRequest := RegisterInstance(cfg.localIp, cfg.port, cfg.nacosServiceName, Some(cfg.nacosNamespace),
      PyNone, PyBool(true), PyBool(true), None, None, Some(cfg.nacosGroup), cfg.nacosEphemeral);
    trace := [registerRequest];
    var ok: bool;
    match replies(0) {
      case Escaped(e) => return Raised(e), trace, tasks';
      case Returned(result) =>
        match In("ok", result.payload) {
          case Failure(e) => return Raised(e), trace, tasks';
          case Success(b) => ok := b;
        }
    }
    if !ok {
      var cancelRequest := CancellationInstance(cfg.nacosServiceName, cfg.localIp, cfg.port,
        Some(cfg.nacosNamespace), Some(cfg.nacosGroup), None, PyBool(cfg.nacosEphemeral));
      trace := trace + [cancelRequest];
      match replies(1) {
        case Escaped(e) => return Raised(e), trace, tasks';
        case Returned(result) => return Raised(CreateInstanceError(result.payload)), trace, tasks';
      }
    }
    tasks' := tasks'[cfg.heartbeatTask := BeatTaskAsWritten(cfg)];
    outcome := Ok;
  }

  /**
    The instance is kept (and its heartbeat scheduled) exactly when "ok" is in
    the registration payload; it is deregistered exactly when the payload is a
    container without "ok", and the deregistration payload then travels in the
    exception.
   */
  lemma InstanceRegisteredIff(cfg: AppConfig, replies: nat -> CallOutcome)
    ensures InstanceStartup(cfg, replies).status == Ok <==>
            replies(0).Returned? && In("ok", replies(0).result.payload) == Success(true)
    ensures InstanceStartup(cfg, replies).calls == 2 <==>
            replies(0).Returned? && In("ok", replies(0).result.payload) == Success(false)
    ensures InstanceStartup(cfg, replies).calls == 2 && replies(1).Returned? ==>
            InstanceStartup(cfg, replies).status == Raised(CreateInstanceError(replies(1).result.payload))
  {
  }

  /**
    A registration that fails in transport is not rolled back: the membership
    test on `False` raises `TypeError` before the deregistration is issued.
   */
  lemma RegistrationFailureRaises(cfg: AppConfig, replies: nat -> CallOutcome)
    requires replies(0) == Returned(FAILURE)
    ensures InstanceStartup(cfg, replies) == Stage(1, Raised(TypeError))
  {
    InFalseRaises("ok");
  }

  /**
    `ticks` iterations of nacos_beat's loop, from iteration `n` on, as a
    function of the script: each iteration first needs `send_beat` on its
    receiver, then makes one call.
   */
  function BeatsFrom(task: BeatTask, n: nat, ticks: nat, replies: nat -> CallOutcome): Stage
    decreases ticks - n
  {
    if n >= ticks then Stage(n, Ok)
    else if task.receiver.NotAClient? then Stage(n, Raised(AttributeError("send_beat")))
    else if !GroupLoggable(task) then Stage(n, Raised(TypeError))
    else if replies(n).Escaped? then Stage(n + 1, Raised(replies(n).error))
    else BeatsFrom(task, n + 1, ticks, replies)
  }

  /** send_beat's log line accepts the bound group: it is falsy or a str. */
  predicate GroupLoggable(task: BeatTask) {
    !Truthy(task.groupName) || task.groupName.PyStr?
  }

  /** The heartbeat request that one iteration sends. */
  predicate IsBeat(task: BeatTask, r: Request, dumps: Value -> string) {
    r == Request(PUT, BASE_HOST + INSTANCE_BASE_URL + "/beat", map[Params := WithTruthy(
      map[ServiceName := PyStr(task.serviceName), Beat := PyStr(dumps(task.beat)), Ephemeral := task.ephemeral],
      [(GroupName, task.groupName)])], None)
  }

  /**
    nacos_beat at config_helper/nacos.py:1060-1070, cut off after `ticks`
    iterations (the source loops forever, sleeping five seconds between
    beats): one send_beat per iteration, on whatever `nacos_client` is bound
    to, with whatever group it was handed.
   */
  method NacosBeat(task: BeatTask, ticks: nat, replies: nat -> CallOutcome, dumps: Value -> string)
    returns (outcome: Outcome, trace: seq<Request>)
    ensures Stage(|trace|, outcome) == BeatsFrom(task, 0, ticks, replies)
    ensures forall i :: 0 <= i < |trace| ==> IsBeat(task, trace[i], dumps)
  {
    trace := [];
    var n := 0;
    while n < ticks
      invariant 0 <= n <= ticks && |trace| == n
      invariant BeatsFrom(task, n, ticks, replies) == BeatsFrom(task, 0, ticks, replies)
      invariant forall i :: 0 <= i < |trace| ==> IsBeat(task, trace[i], dumps)
    {
      if task.receiver.NotAClient? {
        return Raised(AttributeError("send_beat")), trace;
      }
      var built := SendBeat(task.serviceName, task.beat, task.groupName, task.ephemeral, dumps);
      if built.Failure? {
        return Raised(built.error), trace;
      }
      trace := trace + [built.value];
      if replies(n).Escaped? {
        return Raised(replies(n).error), trace;
      }
      n := n + 1;
    }
    outcome := Ok;
  }

  /** With a real client, the loop survives `ticks` iterations exactly when every call returns. */
  lemma {:induction false} BeatsAllReturned(task: BeatTask, n: nat, ticks: nat, replies: nat -> CallOutcome)
    requires task.receiver.Client? && GroupLoggable(task) && n <= ticks
    ensures BeatsFrom(task, n, ticks, replies) == Stage(ticks, Ok) <==>
            forall k :: n <= k < ticks ==> replies(k).Returned?
    ensures BeatsFrom(task, n, ticks, replies).calls <= ticks
    decreases ticks - n
  {
    if n < ticks && replies(n).Returned? {
      BeatsAllReturned(task, n + 1, ticks, replies);
    }
  }

  /** As scheduled by send_nacos_beat, the first iteration raises `AttributeError` and no beat is ever sent. */
  lemma AsWrittenNeverBeats(cfg: AppConfig, ticks: nat, replies: nat -> CallOutcome)
    requires 1 <= ticks
    ensures BeatsFrom(BeatTaskAsWritten(cfg), 0, ticks, replies) == Stage(0, Raised(AttributeError("send_beat")))
  {
  }

  /** With the client passed through, one beat per iteration is sent for as long as the calls return. */
  lemma IntendedBeatsEveryTick(cfg: AppConfig, ticks: nat, replies: nat -> CallOutcome)
    requires forall k :: 0 <= k < ticks ==> replies(k).Returned?
    ensures BeatsFrom(BeatTaskIntended(cfg), 0, ticks, replies) == Stage(ticks, Ok)
  {
    BeatsAllReturned(BeatTaskIntended(cfg), 0, ticks, replies);
  }

  // ---------------------------------------------------------------------------
  // create_nacose_config
  // ---------------------------------------------------------------------------

  /** The Redis settings shared as the `redis` entry. */
  function RedisSettings(cfg: AppConfig): Value {
    PyDict([("host", cfg.redisHost), ("port", cfg.redisPort), ("password", cfg.redisPassword)])
  }

  /** The MySQL settings shared as the `mysql` entry. */
  function MysqlSettings(cfg: AppConfig): Value {
    PyDict([("host", cfg.dbHost), ("port", cfg.dbPort), ("username", cfg.dbUser),
            ("password", cfg.dbPassword), ("db", cfg.dbName)])
  }

  /**
    One entry of create_nacose_config, from call `start` on: fetch it, and
    publish it when the fetched payload says it does not exist. The publish
    guard `if not res` tests the whole `(payload, latency)` pair.
   */
  function ConfigStep(replies: nat -> CallOutcome, start: nat): Stage {
    match Payload(replies(start))
    case Failure(e) => Stage(1, Raised(e))
    case Success(fetched) =>
      match In("config data not exist", fetched)
      case Failure(e) => Stage(1, Raised(e))
      case Success(absent) =>
        if !absent then Stage(1, Ok)
        else match replies(start + 1)
          case Escaped(e) => Stage(2, Raised(e))
          case Returned(res) =>
            if Truthy(AsTuple(res)) then Stage(2, Ok) else Stage(2, Raised(Exception("create config error")))
  }

  /** create_nacose_config as a function of the script: the `redis` entry, then the `mysql` entry. */
  function ConfigStartup(replies: nat -> CallOutcome): Stage {
    var redis := ConfigStep(replies, 0);
    if redis.status.Raised? then redis
    else
      var mysql := ConfigStep(replies, redis.calls);
      Stage(redis.calls + mysql.calls, mysql.status)
  }

  /** The request get_config sends for entry `dataId` of the configured group and namespace. */
  predicate IsConfigFetch(cfg: AppConfig, dataId: string, r: Request) {
    r == Request(GET, BASE_HOST + CONFIG_BASE_URL, map[Params := WithTruthy(
      map[DataId := PyStr(dataId), Group := PyStr(cfg.nacosGroup)], [(Tenant, PyStr(cfg.nacosNamespace))])], None)
  }

  /** The request publish_config sends for entry `dataId` with a dict of settings. */
  predicate IsConfigPublish(cfg: AppConfig, dataId: string, settings: Value, dumps: Value -> string, r: Request) {
    r == Request(POST, BASE_HOST + CONFIG_BASE_URL, map[Data := WithTruthy(
      map[DataId := PyStr(dataId), Group := PyStr(cfg.nacosGroup), Content := PyStr(dumps(settings))],
      [(Tenant, PyStr(cfg.nacosNamespace))]) + map[Type := PyStr("json")]], None)
  }

  /** One entry of create_nacose_config (config_helper/nacos.py:1082-1095 and 1096-1111). */
  method EnsureConfig(cfg: AppConfig, dataId: string, settings: Value, replies: nat -> CallOutcome, start: nat,
                      dumps: Value -> string)
    returns (outcome: Outcome, calls: seq<Request>)
    requires settings.PyDict?
    ensures Stage(|calls|, outcome) == ConfigStep(replies, start)
    ensures 1 <= |calls| && IsConfigFetch(cfg, dataId, calls[0])
    ensures |calls| == 2 ==> IsConfigPublish(cfg, dataId, settings, dumps, calls[1])
  {
    var fetchRequest := GetConfig(dataId, cfg.nacosGroup, Some(cfg.nacosNamespace));
    calls := [fetchRequest];
    var absent: bool;
    match replies(start) {
      case Escaped(e) => return Raised(e), calls;
      case Returned(result) =>
        match In("config data not exist", result.payload) {
          case Failure(e) => return Raised(e), calls;
          case Success(b) => absent := b;
        }
    }
    if absent {
      var publishRequest := PublishConfig(dataId, cfg.nacosGroup, settings, Some(cfg.nacosNamespace), "json", dumps);
      calls := calls + [publishRequest];
      match replies(start + 1) {
        case Escaped(e) => return Raised(e), calls;
        case Returned(result) =>
          if !Truthy(AsTuple(result)) {
            return Raised(Exception("create config error")), calls;
          }
      }
    }
    outcome := Ok;
  }

  /** create_nacose_config at config_helper/nacos.py:1073-1111. */
  method CreateNacosConfig(cfg: AppConfig, replies: nat -> CallOutcome, dumps: Value -> string)
    returns (outcome: Outcome, trace: seq<Request>)
    ensures Stage(|trace|, outcome) == ConfigStartup(replies)
    ensures 1 <= |trace| && IsConfigFetch(cfg, "redis", trace[0])
    ensures ConfigStep(replies, 0).calls == 2 ==> 2 <= |trace| && IsConfigPublish(cfg, "redis", RedisSettings(cfg), dumps, trace[1])
    ensures ConfigStep(replies, 0).status.Ok? ==>
              var m := ConfigStep(replies, 0).calls;
              m < |trace| && IsConfigFetch(cfg, "mysql", trace[m]) &&
              (|trace| == m + 2 ==> IsConfigPublish(cfg, "mysql", MysqlSettings(cfg), dumps, trace[m + 1]))
  {
    var redisCalls, mysqlCalls: seq<Request>;
    outcome, redisCalls := EnsureConfig(cfg, "redis", RedisSettings(cfg), replies, 0, dumps);
    trace := redisCalls;
    if outcome.Raised? {
      return;
    }
    outcome, mysqlCalls := EnsureConfig(cfg, "mysql", MysqlSettings(cfg), replies, |redisCalls|, dumps);
    trace := trace + mysqlCalls;
  }

  /** An entry is published exactly when its fetched payload contains "config data not exist". */
  lemma ConfigPublishedIff(replies: nat -> CallOutcome, start: nat)
    ensures ConfigStep(replies, start).calls == 2 <==>
            replies(start).Returned? && In("config data not exist", replies(start).result.payload) == Success(true)
  {
  }

  /** The guard on the publish result is dead: "create config error" is never raised. */
  lemma ConfigErrorNeverRaised(replies: nat -> CallOutcome)
    requires forall n :: EscapesFromCallApi(replies(n))
    ensures ConfigStartup(replies).status != Raised(Exception("create config error"))
  {
  }

  /**
    One entry as evidently intended: the publish guard tests the payload
    `res[0]`, as every other guard of the plugin does.
   */
  function ConfigStepIntended(replies: nat -> CallOutcome, start: nat): Stage {
    match Payload(replies(start))
    case Failure(e) => Stage(1, Raised(e))
    case Success(fetched) =>
      match In("config data not exist", fetched)
      case Failure(e) => Stage(1, Raised(e))
      case Success(absent) =>
        if !absent then Stage(1, Ok)
        else match Payload(replies(start + 1))
          case Failure(e) => Stage(2, Raised(e))
          case Success(published) =>
            if Truthy(published) then Stage(2, Ok) else Stage(2, Raised(Exception("create config error")))
  }

  /**
    A publish that fails in transport: as written the failure pair passes the
    guard and the entry counts as published; with the intended guard it
    raises "create config error".
   */
  lemma FailedPublishAccepted(replies: nat -> CallOutcome, start: nat)
    requires replies(start).Returned? && In("config data not exist", replies(start).result.payload) == Success(true)
    requires replies(start + 1) == Returned(FAILURE)
    ensures ConfigStep(replies, start) == Stage(2, Ok)
    ensures ConfigStepIntended(replies, start) == Stage(2, Raised(Exception("create config error")))
  {
  }

  /** With the intended guard, "create config error" is raised exactly when the entry was published and the payload is falsy. */
  lemma ConfigErrorIntendedIff(replies: nat -> CallOutcome, start: nat)
    requires EscapesFromCallApi(replies(start)) && EscapesFromCallApi(replies(start + 1))
    ensures ConfigStepIntended(replies, start).status == Raised(Exception("create config error")) <==>
            ConfigStepIntended(replies, start).calls == 2 &&
            replies(start + 1).Returned? && !Truthy(replies(start + 1).result.payload)
    ensures ConfigStepIntended(replies, start).calls == ConfigStep(replies, start).calls
  {
  }

  // ---------------------------------------------------------------------------
  // cancellation_nacos
  // ---------------------------------------------------------------------------

  /**
    cancellation_nacos at config_helper/nacos.py:1123-1142: deregister the
    instance, then cancel the heartbeat task; any exception from the
    cancellation (an unknown task name among them) is swallowed.
   */
  method CancellationNacos(cfg: AppConfig, replies: nat -> CallOutcome, tasks: map<string, BeatTask>)
    returns (outcome: Outcome, trace: seq<Request>, tasks': map<string, BeatTask>)
    ensures |trace| == 1 && IsCancellation(cfg, trace[0])
    ensures outcome == if replies(0).Returned? then Ok else Raised(replies(0).error)
    ensures tasks' == if outcome.Ok? then tasks - {cfg.heartbeatTask} else tasks
    ensures cfg.heartbeatTask in tasks' <==> cfg.heartbeatTask in tasks && outcome.Raised?
  {
    var cancelRequest := CancellationInstance(cfg.nacosServiceName, cfg.localIp, cfg.port,
      Some(cfg.nacosNamespace), Some(cfg.nacosGroup), None, PyBool(cfg.nacosEphemeral));
    trace := [cancelRequest];
    tasks' := tasks;
    if replies(0).Escaped? {
      return Raised(replies(0).error), trace, tasks';
    }
    tasks' := tasks' - {cfg.heartbeatTask};
    outcome := Ok;
  }
}
