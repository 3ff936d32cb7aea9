/**
  The request layer of the registry client (class `NacosClient`,
  config_helper/nacos.py:20-961): one builder per registry endpoint, the
  normalisation of transport replies (`__responseHa`) and the call boundary
  (`call_api`).

  A builder starts from a dict literal holding the required keys and then
  inserts each optional key only when its argument is truthy in Python's sense,
  so an explicit `False`, `0`, `""` or `{}` is sent exactly as an omitted
  argument. `WithTruthy` states that policy once; every builder with
  truthiness-guarded keys is proved to produce `WithTruthy(required, optional)`
  for its own keys (publish_config joins it with its `type` key, sent iff the
  content is not a str, and create_service and update_service with the
  encoded selector), and the lemmas beside it say what that dict holds.
 */
module NacosClient {
  import opened Wrappers
  import opened PyValue

  const BASE_HOST := ""
  const CONFIG_BASE_URL := "/nacos/v1/cs/configs"
  const INSTANCE_BASE_URL := "/nacos/v1/ns/instance"
  const SERVICE_BASE_URL := "/nacos/v1/ns/service"
  const NAMESPACE_BASE_URL := "/nacos/v1/console/namespaces"
  const HEALTH_URL := "/nacos/v1/ns/health/instance"

  datatype Method = GET | POST | PUT | DELETE

  /** The sub-dicts of a request: query parameters, form body and headers. */
  datatype Section = Params | Data | Headers

  /** The keys the builders put into a section; `FieldName` gives each one's spelling on the wire. */
  datatype Field =
    | DataId | Group | Tenant | Content | Type | ListeningConfigs | LongPullingTimeout
    | Ip | Port | ServiceName | Ephemeral | NamespaceId | Weight | Enabled | Healthy
    | Metadata | ClusterName | GroupName | Clusters | HealthyOnly | Beat
    | ProtectThreshold | Selector | PageNo | PageSize
    | NamespaceName | CustomNamespaceId | NamespaceDesc

  function FieldName(f: Field): string {
    match f
    case DataId => "dataId"
    case Group => "group"
    case Tenant => "tenant"
    case Content => "content"
    case Type => "type"
    case ListeningConfigs => "Listening-Configs"
    case LongPullingTimeout => "Long-Pulling-Timeout"
    case Ip => "ip"
    case Port => "port"
    case ServiceName => "serviceName"
    case Ephemeral => "ephemeral"
    case NamespaceId => "namespaceId"
    case Weight => "weight"
    case Enabled => "enabled"
    case Healthy => "healthy"
    case Metadata => "metadata"
    case ClusterName => "clusterName"
    case GroupName => "groupName"
    case Clusters => "clusters"
    case HealthyOnly => "healthyOnly"
    case Beat => "beat"
    case ProtectThreshold => "protectThreshold"
    case Selector => "selector"
    case PageNo => "pageNo"
    case PageSize => "pageSize"
    case NamespaceName => "namespaceName"
    case CustomNamespaceId => "customNamespaceId"
    case NamespaceDesc => "namespaceDesc"
  }

  function SectionName(s: Section): string {
    match s
    case Params => "params"
    case Data => "data"
    case Headers => "headers"
  }

  /**
    The dict a builder hands to `call_api`: `method`, `url`, the sections it
    created, and the `timeout` that `call_api` itself adds on the httpx path.
   */
  datatype Request = Request(
    httpMethod: Method,
    url: string,
    sections: map<Section, map<Field, Value>>,
    timeout: Option<int>)

  /**
    `data[section][key] = v` on a request dict: raises `KeyError` when the
    dict has no such section.
   */
  function SetItem(r: Request, section: Section, key: Field, v: Value): (r': Result<Request, PyError>)
    ensures r'.Failure? <==> section !in r.sections
    ensures r'.Failure? ==> r'.error == KeyError(SectionName(section))
    ensures r'.Success? ==>
              section in r.sections && r'.value == r.(sections := r.sections[section := r.sections[section][key := v]])
  {
    if section in r.sections then
      Success(r.(sections := r.sections[section := r.sections[section][key := v]]))
    else
      Failure(KeyError(SectionName(section)))
  }

  /**
    The inclusion policy of every builder: the required keys, then each
    optional `(key, argument)` pair in the order the code tests them, the key
    being set only when its argument is truthy.
   */
  function WithTruthy(required: map<Field, Value>, optional: seq<(Field, Value)>): map<Field, Value>
    decreases |optional|
  {
    if optional == [] then required
    else
      var before := WithTruthy(required, optional[..|optional| - 1]);
      var last := optional[|optional| - 1];
      if Truthy(last.1) then before[last.0 := last.1] else before
  }

  /** The keys of the optional arguments are distinct and none of them is required. */
  predicate SeparateKeys(required: map<Field, Value>, optional: seq<(Field, Value)>) {
    (forall i, j :: 0 <= i < j < |optional| ==> optional[i].0 != optional[j].0) &&
    (forall i :: 0 <= i < |optional| ==> optional[i].0 !in required)
  }

  /** Every required key is sent, with the value given. */
  lemma {:induction false} WithTruthyRequired(required: map<Field, Value>, optional: seq<(Field, Value)>, k: Field)
    requires SeparateKeys(required, optional) && k in required
    ensures k in WithTruthy(required, optional) && WithTruthy(required, optional)[k] == required[k]
    decreases |optional|
  {
    if optional != [] {
      var n := |optional| - 1;
      assert SeparateKeys(required, optional[..n]);
      assert optional[n].0 != k;
      WithTruthyRequired(required, optional[..n], k);
    }
  }

  /** Nothing but the required keys and the keys of the optional arguments is ever sent. */
  lemma {:induction false} WithTruthyOnly(required: map<Field, Value>, optional: seq<(Field, Value)>, k: Field)
    requires k in WithTruthy(required, optional)
    ensures k in required || exists i :: 0 <= i < |optional| && optional[i].0 == k
    decreases |optional|
  {
    if optional != [] {
      var n := |optional| - 1;
      if optional[n].0 != k {
        WithTruthyOnly(required, optional[..n], k);
        if k !in required {
          var i :| 0 <= i < n && optional[..n][i].0 == k;
          assert optional[i].0 == k;
        }
      }
    }
  }

  /** The key of optional argument `i` is sent iff the argument is truthy, and then with that value. */
  lemma {:induction false} WithTruthyOptional(required: map<Field, Value>, optional: seq<(Field, Value)>, i: nat)
    requires SeparateKeys(required, optional) && i < |optional|
    ensures optional[i].0 in WithTruthy(required, optional) <==> Truthy(optional[i].1)
    ensures Truthy(optional[i].1) ==> WithTruthy(required, optional)[optional[i].0] == optional[i].1
    decreases |optional|
  {
    var n := |optional| - 1;
    var before := optional[..n];
    assert SeparateKeys(required, before);
    if i < n {
      assert before[i] == optional[i] && optional[n].0 != optional[i].0;
      WithTruthyOptional(required, before, i);
    } else if optional[i].0 in WithTruthy(required, before) {
      WithTruthyOnly(required, before, optional[i].0);
      assert false;
    }
  }

  /**
    An explicit falsy argument (`False`, `0`, `""`, `{}`) yields the same
    dict as `None`, the default of every optional argument.
   */
  lemma {:induction false} FalsyIsOmitted(required: map<Field, Value>, optional: seq<(Field, Value)>, i: nat, falsy: Value)
    requires i < |optional| && optional[i].1 == PyNone && !Truthy(falsy)
    ensures WithTruthy(required, optional[i := (optional[i].0, falsy)]) == WithTruthy(required, optional)
    decreases |optional|
  {
    var n := |optional| - 1;
    var changed := optional[i := (optional[i].0, falsy)];
    if i < n {
      assert changed[..n] == optional[..n][i := (optional[i].0, falsy)];
      FalsyIsOmitted(required, optional[..n], i, falsy);
    } else {
      assert changed[..n] == optional[..n];
    }
  }

  /** A dict argument that travels JSON-encoded, and only when it is truthy. */
  function EncodedIfTruthy(k: Field, v: Value, dumps: Value -> string): map<Field, Value> {
    if Truthy(v) then map[k := PyStr(dumps(v))] else map[]
  }

  /** The guarded insert of a JSON-encoded dict is a union with `EncodedIfTruthy`. */
  lemma UpdateIsUnion(m: map<Field, Value>, k: Field, v: Value, dumps: Value -> string)
    ensures (if Truthy(v) then m[k := PyStr(dumps(v))] else m) == m + EncodedIfTruthy(k, v, dumps)
  {
  }

  /** One guarded insert `if v: d[k] = v` moves the dict from one `WithTruthy` to the next. */
  lemma WithTruthyExtend(required: map<Field, Value>, optional: seq<(Field, Value)>, k: Field, v: Value)
    ensures WithTruthy(required, optional + [(k, v)]) ==
            if Truthy(v) then WithTruthy(required, optional)[k := v] else WithTruthy(required, optional)
  {
    assert (optional + [(k, v)])[..|optional|] == optional;
  }

  /**
    The `Listening-Configs` value of listener_config
    (config_helper/nacos.py:156-159): `dataId^2group^2contentMD5` followed by
    `^2tenant^1` when the tenant is truthy and by `^1` otherwise.
   */
  function ListeningConfigsValue(dataId: string, group: string, contentMD5: string, tenant: Option<string>): string
  {
    dataId + "^2" + group + "^2" + contentMD5 + (if Truthy(OptStr(tenant)) then "^2" + tenant.value + "^1" else "^1")
  }

  /**
    The key string splits back into its parts: it starts with the data id,
    `^2` and the group; a truthy tenant sits between a `^2` and the closing
    `^1`, and without one the MD5 comes right before the closing `^1`.
   */
  lemma {:induction false} ListeningConfigsParts(dataId: string, group: string, contentMD5: string, tenant: Option<string>)
    ensures var s := ListeningConfigsValue(dataId, group, contentMD5, tenant);
      s[..|dataId|] == dataId && s[|dataId|..|dataId| + 2] == "^2" &&
      s[|dataId| + 2..|dataId| + 2 + |group|] == group &&
      s[|s| - 2..] == "^1" &&
      (Truthy(OptStr(tenant)) ==> s[|s| - 2 - |tenant.value|..|s| - 2] == tenant.value &&
                                  s[|s| - 4 - |tenant.value|..|s| - 2 - |tenant.value|] == "^2") &&
      (!Truthy(OptStr(tenant)) ==> s[|s| - 2 - |contentMD5|..|s| - 2] == contentMD5)
  {
    var s := ListeningConfigsValue(dataId, group, contentMD5, tenant);
    var head := dataId + "^2" + group + "^2" + contentMD5;
    assert head[..|dataId|] == dataId;
    assert head[|dataId|..|dataId| + 2] == "^2";
    assert head[|dataId| + 2..|dataId| + 2 + |group|] == group;
    if Truthy(OptStr(tenant)) {
      assert s == head + ("^2" + tenant.value + "^1");
    } else {
      assert s == head + "^1";
    }
  }

  /** listener_config at config_helper/nacos.py:128-165: long-poll for a change of one configuration entry. */
  method ListenerConfig(dataId: string, group: string, contentMD5: string, timeout: int, tenant: Option<string>)
    returns (r: Request)
    ensures r == Request(POST, BASE_HOST + CONFIG_BASE_URL + "/listener",
      map[Data := map[ListeningConfigs := PyStr(ListeningConfigsValue(dataId, group, contentMD5, tenant))],
          Headers := map[LongPullingTimeout := PyInt(timeout)]], None)
  {
    var listening := dataId + "^2" + group + "^2" + contentMD5;
    if Truthy(OptStr(tenant)) {
      listening := listening + "^2" + tenant.value + "^1";
      assert listening == dataId + "^2" + group + "^2" + contentMD5 + ("^2" + tenant.value + "^1");
    } else {
      listening := listening + "^1";
    }
    r := Request(POST, BASE_HOST + CONFIG_BASE_URL + "/listener",
      map[Data := map[ListeningConfigs := PyStr(listening)],
          Headers := map[LongPullingTimeout := PyInt(timeout)]], None);
  }

  /** What publish_config sends as `content`: a str unchanged, anything else JSON-encoded. */
  function ContentOf(content: Value, dumps: Value -> string): Value {
    if content.PyStr? then content else PyStr(dumps(content))
  }

  /**
    publish_config at config_helper/nacos.py:167-207: publish a configuration
    entry. `type` is sent iff the content is not a str; `tenant` iff it is truthy.
   */
  method PublishConfig(dataId: string, group: string, content: Value, tenant: Option<string>, contentType: string,
                       dumps: Value -> string) returns (r: Request)
    ensures r == Request(POST, BASE_HOST + CONFIG_BASE_URL, map[Data := WithTruthy(
        map[DataId := PyStr(dataId), Group := PyStr(group), Content := ContentOf(content, dumps)],
        [(Tenant, OptStr(tenant))]) + (if content.PyStr? then map[] else map[Type := PyStr(contentType)])], None)
    ensures Content in r.sections[Data] && (content.PyStr? ==> r.sections[Data][Content] == content)
    ensures Type in r.sections[Data] <==> !content.PyStr?
    ensures Tenant in r.sections[Data] <==> Truthy(OptStr(tenant))
  {
    var data := map[DataId := PyStr(dataId), Group := PyStr(group),
                    Content := if content.PyStr? then content else PyStr(dumps(content))];
    ghost var required := data;
    if Truthy(OptStr(tenant)) { data := data[Tenant := OptStr(tenant)]; }
    WithTruthyExtend(required, [], Tenant, OptStr(tenant));
    WithTruthyRequired(required, [(Tenant, OptStr(tenant))], Content);
    WithTruthyOptional(required, [(Tenant, OptStr(tenant))], 0);
    ghost var beforeType := data;
    if !content.PyStr? { data := data[Type := PyStr(contentType)]; }
    assert data == beforeType + (if content.PyStr? then map[] else map[Type := PyStr(contentType)]);
    r := Request(POST, BASE_HOST + CONFIG_BASE_URL, map[Data := data], None);
  }

  /** get_config at config_helper/nacos.py:93-126: read one configuration entry. */
  method GetConfig(dataId: string, group: string, tenant: Option<string>) returns (r: Request)
    ensures r == Request(GET, BASE_HOST + CONFIG_BASE_URL, map[Params := WithTruthy(
        map[DataId := PyStr(dataId), Group := PyStr(group)],
        [(Tenant, OptStr(tenant))])], None)
  {
    var params := map[DataId := PyStr(dataId), Group := PyStr(group)];
    ghost var required, optional := params, [];
    if Truthy(OptStr(tenant)) { params := params[Tenant := OptStr(tenant)]; }
    WithTruthyExtend(required, optional, Tenant, OptStr(tenant));
    optional := optional + [(Tenant, OptStr(tenant))];
    assert optional == [(Tenant, OptStr(tenant))];
    r := Request(GET, BASE_HOST + CONFIG_BASE_URL, map[Params := params], None);
  }

  /** delete_config at config_helper/nacos.py:209-242: delete one configuration entry. */
  method DeleteConfig(dataId: string, group: string, tenant: Option<string>) returns (r: Request)
    ensures r == Request(DELETE, BASE_HOST + CONFIG_BASE_URL, map[Params := WithTruthy(
        map[DataId := PyStr(dataId), Group := PyStr(group)],
        [(Tenant, OptStr(tenant))])], None)
  {
    var params := map[DataId := PyStr(dataId), Group := PyStr(group)];
    ghost var required, optional := params, [];
    if Truthy(OptStr(tenant)) { params := params[Tenant := OptStr(tenant)]; }
    WithTruthyExtend(required, optional, Tenant, OptStr(tenant));
    optional := optional + [(Tenant, OptStr(tenant))];
    assert optional == [(Tenant, OptStr(tenant))];
    r := Request(DELETE, BASE_HOST + CONFIG_BASE_URL, map[Params := params], None);
  }

  /** register_instance at config_helper/nacos.py:244-316: register one service instance. */
  method RegisterInstance(ip: string, port: int, serviceName: string, namespaceId: Option<string>, weight: Value, enabled: Value,
    healthy: Value, metadata: Option<string>, clusterName: Option<string>, groupName: Option<string>, ephemeral: bool) returns (r: Request)
    ensures r == Request(POST, BASE_HOST + INSTANCE_BASE_URL, map[Data := WithTruthy(
        map[Ip := PyStr(ip),
            Port := PyInt(port),
            ServiceName := PyStr(serviceName),
            Ephemeral := PyBool(ephemeral)],
        [(NamespaceId, OptStr(namespaceId)),
         (Weight, weight),
         (Enabled, enabled),
         (Healthy, healthy),
         (Metadata, OptStr(metadata)),
         (ClusterName, OptStr(clusterName)),
         (GroupName, OptStr(groupName))])], None)
  {
    var data := map[Ip := PyStr(ip),
      Port := PyInt(port),
      ServiceName := PyStr(serviceName),
      Ephemeral := PyBool(ephemeral)];
    ghost var required, optional := data, [];
    if Truthy(OptStr(namespaceId)) { data := data[NamespaceId := OptStr(namespaceId)]; }
    WithTruthyExtend(required, optional, NamespaceId, OptStr(namespaceId));
    optional := optional + [(NamespaceId, OptStr(namespaceId))];
    if Truthy(weight) { data := data[Weight := weight]; }
    WithTruthyExtend(required, optional, Weight, weight);
    optional := optional + [(Weight, weight)];
    if Truthy(enabled) { data := data[Enabled := enabled]; }
    WithTruthyExtend(required, optional, Enabled, enabled);
    optional := optional + [(Enabled, enabled)];
    if Truthy(healthy) { data := data[Healthy := healthy]; }
    WithTruthyExtend(required, optional, Healthy, healthy);
    optional := optional + [(Healthy, healthy)];
    if Truthy(OptStr(metadata)) { data := data[Metadata := OptStr(metadata)]; }
    WithTruthyExtend(required, optional, Metadata, OptStr(metadata));
    optional := optional + [(Metadata, OptStr(metadata))];
    if Truthy(OptStr(clusterName)) { data := data[ClusterName := OptStr(clusterName)]; }
    WithTruthyExtend(required, optional, ClusterName, OptStr(clusterName));
    optional := optional + [(ClusterName, OptStr(clusterName))];
    if Truthy(OptStr(groupName)) { data := data[GroupName := OptStr(groupName)]; }
    WithTruthyExtend(required, optional, GroupName, OptStr(groupName));
    optional := optional + [(GroupName, OptStr(groupName))];
    assert optional == [(NamespaceId, OptStr(namespaceId)),
                         (Weight, weight),
                         (Enabled, enabled),
                         (Healthy, healthy),
                         (Metadata, OptStr(metadata)),
                         (ClusterName, OptStr(clusterName)),
                         (GroupName, OptStr(groupName))];
    r := Request(POST, BASE_HOST + INSTANCE_BASE_URL, map[Data := data], None);
  }

  /** cancellation_instance at config_helper/nacos.py:318-369: deregister one service instance. */
  method CancellationInstance(serviceName: string, ip: string, port: int, namespaceId: Option<string>, groupName: Option<string>,
    clusterName: Option<string>, ephemeral: Value) returns (r: Request)
    ensures r == Request(DELETE, BASE_HOST + INSTANCE_BASE_URL, map[Params := WithTruthy(
        map[ServiceName := PyStr(serviceName), Ip := PyStr(ip), Port := PyInt(port)],
        [(NamespaceId, OptStr(namespaceId)),
         (GroupName, OptStr(groupName)),
         (ClusterName, OptStr(clusterName)),
         (Ephemeral, ephemeral)])], None)
  {
    var params := map[ServiceName := PyStr(serviceName), Ip := PyStr(ip), Port := PyInt(port)];
    ghost var required, optional := params, [];
    if Truthy(OptStr(namespaceId)) { params := params[NamespaceId := OptStr(namespaceId)]; }
    WithTruthyExtend(required, optional, NamespaceId, OptStr(namespaceId));
    optional := optional + [(NamespaceId, OptStr(namespaceId))];
    if Truthy(OptStr(groupName)) { params := params[GroupName := OptStr(groupName)]; }
    WithTruthyExtend(required, optional, GroupName, OptStr(groupName));
    optional := optional + [(GroupName, OptStr(groupName))];
    if Truthy(OptStr(clusterName)) { params := params[ClusterName := OptStr(clusterName)]; }
    WithTruthyExtend(required, optional, ClusterName, OptStr(clusterName));
    optional := optional + [(ClusterName, OptStr(clusterName))];
    if Truthy(ephemeral) { params := params[Ephemeral := ephemeral]; }
    WithTruthyExtend(required, optional, Ephemeral, ephemeral);
    optional := optional + [(Ephemeral, ephemeral)];
    assert optional == [(NamespaceId, OptStr(namespaceId)),
                         (GroupName, OptStr(groupName)),
                         (ClusterName, OptStr(clusterName)),
                         (Ephemeral, ephemeral)];
    r := Request(DELETE, BASE_HOST + INSTANCE_BASE_URL, map[Params := params], None);
  }

  /** update_instance at config_helper/nacos.py:371-437: update one service instance. */
  method UpdateInstance(serviceName: string, ip: string, port: int, namespaceId: Option<string>, weight: Value, enabled: Value,
    metadata: Option<string>, clusterName: Option<string>, groupName: Option<string>, ephemeral: Value) returns (r: Request)
    ensures r == Request(PUT, BASE_HOST + INSTANCE_BASE_URL, map[Params := WithTruthy(
        map[ServiceName := PyStr(serviceName), Ip := PyStr(ip), Port := PyInt(port)],
        [(NamespaceId, OptStr(namespaceId)),
         (GroupName, OptStr(groupName)),
         (ClusterName, OptStr(clusterName)),
         (Ephemeral, ephemeral),
         (Weight, weight),
         (Enabled, enabled),
         (Metadata, OptStr(metadata))])], None)
  {
    var params := map[ServiceName := PyStr(serviceName), Ip := PyStr(ip), Port := PyInt(port)];
    ghost var required, optional := params, [];
    if Truthy(OptStr(namespaceId)) { params := params[NamespaceId := OptStr(namespaceId)]; }
    WithTruthyExtend(required, optional, NamespaceId, OptStr(namespaceId));
    optional := optional + [(NamespaceId, OptStr(namespaceId))];
    if Truthy(OptStr(groupName)) { params := params[GroupName := OptStr(groupName)]; }
    WithTruthyExtend(required, optional, GroupName, OptStr(groupName));
    optional := optional + [(GroupName, OptStr(groupName))];
    if Truthy(OptStr(clusterName)) { params := params[ClusterName := OptStr(clusterName)]; }
    WithTruthyExtend(required, optional, ClusterName, OptStr(clusterName));
    optional := optional + [(ClusterName, OptStr(clusterName))];
    if Truthy(ephemeral) { params := params[Ephemeral := ephemeral]; }
    WithTruthyExtend(required, optional, Ephemeral, ephemeral);
    optional := optional + [(Ephemeral, ephemeral)];
    if Truthy(weight) { params := params[Weight := weight]; }
    WithTruthyExtend(required, optional, Weight, weight);
    optional := optional + [(Weight, weight)];
    if Truthy(enabled) { params := params[Enabled := enabled]; }
    WithTruthyExtend(required, optional, Enabled, enabled);
    optional := optional + [(Enabled, enabled)];
    if Truthy(OptStr(metadata)) { params := params[Metadata := OptStr(metadata)]; }
    WithTruthyExtend(required, optional, Metadata, OptStr(metadata));
    optional := optional + [(Metadata, OptStr(metadata))];
    assert optional == [(NamespaceId, OptStr(namespaceId)),
                         (GroupName, OptStr(groupName)),
                         (ClusterName, OptStr(clusterName)),
                         (Ephemeral, ephemeral),
                         (Weight, weight),
                         (Enabled, enabled),
                         (Metadata, OptStr(metadata))];
    r := Request(PUT, BASE_HOST + INSTANCE_BASE_URL, map[Params := params], None);
  }

  /** get_instance at config_helper/nacos.py:439-484: list the instances of a service. */
  method GetInstance(serviceName: string, namespaceId: Option<string>, clusters: Option<string>, groupName: Option<string>, healthyOnly: bool) returns (r: Request)
    ensures r == Request(GET, BASE_HOST + INSTANCE_BASE_URL + "/list", map[Params := WithTruthy(
        map[ServiceName := PyStr(serviceName)],
        [(NamespaceId, OptStr(namespaceId)),
         (Clusters, OptStr(clusters)),
         (GroupName, OptStr(groupName)),
         (HealthyOnly, PyBool(healthyOnly))])], None)
  {
    var params := map[ServiceName := PyStr(serviceName)];
    ghost var required, optional := params, [];
    if Truthy(OptStr(namespaceId)) { params := params[NamespaceId := OptStr(namespaceId)]; }
    WithTruthyExtend(required, optional, NamespaceId, OptStr(namespaceId));
    optional := optional + [(NamespaceId, OptStr(namespaceId))];
    if Truthy(OptStr(clusters)) { params := params[Clusters := OptStr(clusters)]; }
    WithTruthyExtend(required, optional, Clusters, OptStr(clusters));
    optional := optional + [(Clusters, OptStr(clusters))];
    if Truthy(OptStr(groupName)) { params := params[GroupName := OptStr(groupName)]; }
    WithTruthyExtend(required, optional, GroupName, OptStr(groupName));
    optional := optional + [(GroupName, OptStr(groupName))];
    if Truthy(PyBool(healthyOnly)) { params := params[HealthyOnly := PyBool(healthyOnly)]; }
    WithTruthyExtend(required, optional, HealthyOnly, PyBool(healthyOnly));
    optional := optional + [(HealthyOnly, PyBool(healthyOnly))];
    assert optional == [(NamespaceId, OptStr(namespaceId)),
                         (Clusters, OptStr(clusters)),
                         (GroupName, OptStr(groupName)),
                         (HealthyOnly, PyBool(healthyOnly))];
    r := Request(GET, BASE_HOST + INSTANCE_BASE_URL + "/list", map[Params := params], None);
  }

  /** detail_instance at config_helper/nacos.py:486-542: fetch one instance. */
  method DetailInstance(serviceName: string, ip: string, port: int, namespaceId: Option<string>, clusterName: Option<string>,
    groupName: Option<string>, healthyOnly: bool, ephemeral: Value) returns (r: Request)
    ensures r == Request(GET, BASE_HOST + INSTANCE_BASE_URL, map[Params := WithTruthy(
        map[ServiceName := PyStr(serviceName), Ip := PyStr(ip), Port := PyInt(port)],
        [(NamespaceId, OptStr(namespaceId)),
         (ClusterName, OptStr(clusterName)),
         (GroupName, OptStr(groupName)),
         (HealthyOnly, PyBool(healthyOnly)),
         (Ephemeral, ephemeral)])], None)
  {
    var params := map[ServiceName := PyStr(serviceName), Ip := PyStr(ip), Port := PyInt(port)];
    ghost var required, optional := params, [];
    if Truthy(OptStr(namespaceId)) { params := params[NamespaceId := OptStr(namespaceId)]; }
    WithTruthyExtend(required, optional, NamespaceId, OptStr(namespaceId));
    optional := optional + [(NamespaceId, OptStr(namespaceId))];
    if Truthy(OptStr(clusterName)) { params := params[ClusterName := OptStr(clusterName)]; }
    WithTruthyExtend(required, optional, ClusterName, OptStr(clusterName));
    optional := optional + [(ClusterName, OptStr(clusterName))];
    if Truthy(OptStr(groupName)) { params := params[GroupName := OptStr(groupName)]; }
    WithTruthyExtend(required, optional, GroupName, OptStr(groupName));
    optional := optional + [(GroupName, OptStr(groupName))];
    if Truthy(PyBool(healthyOnly)) { params := params[HealthyOnly := PyBool(healthyOnly)]; }
    WithTruthyExtend(required, optional, HealthyOnly, PyBool(healthyOnly));
    optional := optional + [(HealthyOnly, PyBool(healthyOnly))];
    if Truthy(ephemeral) { params := params[Ephemeral := ephemeral]; }
    WithTruthyExtend(required, optional, Ephemeral, ephemeral);
    optional := optional + [(Ephemeral, ephemeral)];
    assert optional == [(NamespaceId, OptStr(namespaceId)),
                         (ClusterName, OptStr(clusterName)),
                         (GroupName, OptStr(groupName)),
                         (HealthyOnly, PyBool(healthyOnly)),
                         (Ephemeral, ephemeral)];
    r := Request(GET, BASE_HOST + INSTANCE_BASE_URL, map[Params := params], None);
  }

  /** create_service at config_helper/nacos.py:583-633: create a service; a selector dict travels JSON-encoded. */
  method CreateService(serviceName: string, namespaceId: Option<string>, protectThreshold: Value, groupName: Option<string>,
    metadata: Option<string>, selector: Value, dumps: Value -> string) returns (r: Request)
    ensures r == Request(POST, BASE_HOST + SERVICE_BASE_URL, map[Data := WithTruthy(
        map[ServiceName := PyStr(serviceName)],
        [(NamespaceId, OptStr(namespaceId)),
         (ProtectThreshold, protectThreshold),
         (GroupName, OptStr(groupName)),
         (Metadata, OptStr(metadata))]) + EncodedIfTruthy(Selector, selector, dumps)], None)
  {
    var data := map[ServiceName := PyStr(serviceName)];
    ghost var required, optional := data, [];
    if Truthy(OptStr(namespaceId)) { data := data[NamespaceId := OptStr(namespaceId)]; }
    WithTruthyExtend(required, optional, NamespaceId, OptStr(namespaceId));
    optional := optional + [(NamespaceId, OptStr(namespaceId))];
    if Truthy(protectThreshold) { data := data[ProtectThreshold := protectThreshold]; }
    WithTruthyExtend(required, optional, ProtectThreshold, protectThreshold);
    optional := optional + [(ProtectThreshold, protectThreshold)];
    if Truthy(OptStr(groupName)) { data := data[GroupName := OptStr(groupName)]; }
    WithTruthyExtend(required, optional, GroupName, OptStr(groupName));
    optional := optional + [(GroupName, OptStr(groupName))];
    if Truthy(OptStr(metadata)) { data := data[Metadata := OptStr(metadata)]; }
    WithTruthyExtend(required, optional, Metadata, OptStr(metadata));
    optional := optional + [(Metadata, OptStr(metadata))];
    assert optional == [(NamespaceId, OptStr(namespaceId)),
                         (ProtectThreshold, protectThreshold),
                         (GroupName, OptStr(groupName)),
                         (Metadata, OptStr(metadata))];
    ghost var beforeSelector := data;
    if Truthy(selector) { data := data[Selector := PyStr(dumps(selector))]; }
    UpdateIsUnion(beforeSelector, Selector, selector, dumps);
    r := Request(POST, BASE_HOST + SERVICE_BASE_URL, map[Data := data], None);
  }

  /** delete_service at config_helper/nacos.py:635-670: delete a service. */
  method DeleteService(serviceName: string, namespaceId: Option<string>, groupName: Option<string>) returns (r: Request)
    ensures r == Request(DELETE, BASE_HOST + SERVICE_BASE_URL, map[Params := WithTruthy(
        map[ServiceName := PyStr(serviceName)],
        [(NamespaceId, OptStr(namespaceId)), (GroupName, OptStr(groupName))])], None)
  {
    var params := map[ServiceName := PyStr(serviceName)];
    ghost var required, optional := params, [];
    if Truthy(OptStr(namespaceId)) { params := params[NamespaceId := OptStr(namespaceId)]; }
    WithTruthyExtend(required, optional, NamespaceId, OptStr(namespaceId));
    optional := optional + [(NamespaceId, OptStr(namespaceId))];
    if Truthy(OptStr(groupName)) { params := params[GroupName := OptStr(groupName)]; }
    WithTruthyExtend(required, optional, GroupName, OptStr(groupName));
    optional := optional + [(GroupName, OptStr(groupName))];
    assert optional == [(NamespaceId, OptStr(namespaceId)), (GroupName, OptStr(groupName))];
    r := Request(DELETE, BASE_HOST + SERVICE_BASE_URL, map[Params := params], None);
  }

  /** update_service at config_helper/nacos.py:672-722: update a service; a selector dict travels JSON-encoded. */
  method UpdateService(serviceName: string, namespaceId: Option<string>, protectThreshold: Value, groupName: Option<string>,
    metadata: Option<string>, selector: Value, dumps: Value -> string) returns (r: Request)
    ensures r == Request(PUT, BASE_HOST + SERVICE_BASE_URL, map[Params := WithTruthy(
        map[ServiceName := PyStr(serviceName)],
        [(NamespaceId, OptStr(namespaceId)),
         (ProtectThreshold, protectThreshold),
         (GroupName, OptStr(groupName)),
         (Metadata, OptStr(metadata))]) + EncodedIfTruthy(Selector, selector, dumps)], None)
  {
    var params := map[ServiceName := PyStr(serviceName)];
    ghost var required, optional := params, [];
    if Truthy(OptStr(namespaceId)) { params := params[NamespaceId := OptStr(namespaceId)]; }
    WithTruthyExtend(required, optional, NamespaceId, OptStr(namespaceId));
    optional := optional + [(NamespaceId, OptStr(namespaceId))];
    if Truthy(protectThreshold) { params := params[ProtectThreshold := protectThreshold]; }
    WithTruthyExtend(required, optional, ProtectThreshold, protectThreshold);
    optional := optional + [(ProtectThreshold, protectThreshold)];
    if Truthy(OptStr(groupName)) { params := params[GroupName := OptStr(groupName)]; }
    WithTruthyExtend(required, optional, GroupName, OptStr(groupName));
    optional := optional + [(GroupName, OptStr(groupName))];
    if Truthy(OptStr(metadata)) { params := params[Metadata := OptStr(metadata)]; }
    WithTruthyExtend(required, optional, Metadata, OptStr(metadata));
    optional := optional + [(Metadata, OptStr(metadata))];
    assert optional == [(NamespaceId, OptStr(namespaceId)),
                         (ProtectThreshold, protectThreshold),
                         (GroupName, OptStr(groupName)),
                         (Metadata, OptStr(metadata))];
    ghost var beforeSelector := params;
    if Truthy(selector) { params := params[Selector := PyStr(dumps(selector))]; }
    UpdateIsUnion(beforeSelector, Selector, selector, dumps);
    r := Request(PUT, BASE_HOST + SERVICE_BASE_URL, map[Params := params], None);
  }

  /** get_service at config_helper/nacos.py:724-759: fetch a service. */
  method GetService(serviceName: string, namespaceId: Option<string>, groupName: Option<string>) returns (r: Request)
    ensures r == Request(GET, BASE_HOST + SERVICE_BASE_URL, map[Params := WithTruthy(
        map[ServiceName := PyStr(serviceName)],
        [(NamespaceId, OptStr(namespaceId)), (GroupName, OptStr(groupName))])], None)
  {
    var params := map[ServiceName := PyStr(serviceName)];
    ghost var required, optional := params, [];
    if Truthy(OptStr(namespaceId)) { params := params[NamespaceId := OptStr(namespaceId)]; }
    WithTruthyExtend(required, optional, NamespaceId, OptStr(namespaceId));
    optional := optional + [(NamespaceId, OptStr(namespaceId))];
    if Truthy(OptStr(groupName)) { params := params[GroupName := OptStr(groupName)]; }
    WithTruthyExtend(required, optional, GroupName, OptStr(groupName));
    optional := optional + [(GroupName, OptStr(groupName))];
    assert optional == [(NamespaceId, OptStr(namespaceId)), (GroupName, OptStr(groupName))];
    r := Request(GET, BASE_HOST + SERVICE_BASE_URL, map[Params := params], None);
  }

  /** get_service_list at config_helper/nacos.py:761-799: one page of the service list. */
  method GetServiceList(pageNo: int, pageSize: int, namespaceId: Option<string>, groupName: Option<string>) returns (r: Request)
    ensures r == Request(GET, BASE_HOST + SERVICE_BASE_URL + "/list", map[Params := WithTruthy(
        map[PageNo := PyInt(pageNo), PageSize := PyInt(pageSize)],
        [(NamespaceId, OptStr(namespaceId)), (GroupName, OptStr(groupName))])], None)
  {
    var params := map[PageNo := PyInt(pageNo), PageSize := PyInt(pageSize)];
    ghost var required, optional := params, [];
    if Truthy(OptStr(namespaceId)) { params := params[NamespaceId := OptStr(namespaceId)]; }
    WithTruthyExtend(required, optional, NamespaceId, OptStr(namespaceId));
    optional := optional + [(NamespaceId, OptStr(namespaceId))];
    if Truthy(OptStr(groupName)) { params := params[GroupName := OptStr(groupName)]; }
    WithTruthyExtend(required, optional, GroupName, OptStr(groupName));
    optional := optional + [(GroupName, OptStr(groupName))];
    assert optional == [(NamespaceId, OptStr(namespaceId)), (GroupName, OptStr(groupName))];
    r := Request(GET, BASE_HOST + SERVICE_BASE_URL + "/list", map[Params := params], None);
  }

  /** update_instance_health at config_helper/nacos.py:801-850: set the health flag of one instance. */
  method UpdateInstanceHealth(serviceName: string, ip: string, port: int, healthy: bool, namespaceId: Option<string>, groupName: Option<string>,
    clusterName: Option<string>) returns (r: Request)
    ensures r == Request(PUT, BASE_HOST + HEALTH_URL, map[Params := WithTruthy(
        map[ServiceName := PyStr(serviceName),
            Ip := PyStr(ip),
            Port := PyInt(port),
            Healthy := PyBool(healthy)],
        [(NamespaceId, OptStr(namespaceId)),
         (GroupName, OptStr(groupName)),
         (ClusterName, OptStr(clusterName))])], None)
  {
    var params := map[ServiceName := PyStr(serviceName),
      Ip := PyStr(ip),
      Port := PyInt(port),
      Healthy := PyBool(healthy)];
    ghost var required, optional := params, [];
    if Truthy(OptStr(namespaceId)) { params := params[NamespaceId := OptStr(namespaceId)]; }
    WithTruthyExtend(required, optional, NamespaceId, OptStr(namespaceId));
    optional := optional + [(NamespaceId, OptStr(namespaceId))];
    if Truthy(OptStr(groupName)) { params := params[GroupName := OptStr(groupName)]; }
    WithTruthyExtend(required, optional, GroupName, OptStr(groupName));
    optional := optional + [(GroupName, OptStr(groupName))];
    if Truthy(OptStr(clusterName)) { params := params[ClusterName := OptStr(clusterName)]; }
    WithTruthyExtend(required, optional, ClusterName, OptStr(clusterName));
    optional := optional + [(ClusterName, OptStr(clusterName))];
    assert optional == [(NamespaceId, OptStr(namespaceId)),
                         (GroupName, OptStr(groupName)),
                         (ClusterName, OptStr(clusterName))];
    r := Request(PUT, BASE_HOST + HEALTH_URL, map[Params := params], None);
  }

  /** create_namespace at config_helper/nacos.py:869-903: create a namespace. */
  method CreateNamespace(namespaceName: string, customNamespaceId: string, namespaceDesc: Option<string>) returns (r: Request)
    ensures r == Request(POST, BASE_HOST + NAMESPACE_BASE_URL, map[Data := WithTruthy(
        map[NamespaceName := PyStr(namespaceName),
            CustomNamespaceId := PyStr(customNamespaceId)],
        [(NamespaceDesc, OptStr(namespaceDesc))])], None)
  {
    var data := map[NamespaceName := PyStr(namespaceName), CustomNamespaceId := PyStr(customNamespaceId)];
    ghost var required, optional := data, [];
    if Truthy(OptStr(namespaceDesc)) { data := data[NamespaceDesc := OptStr(namespaceDesc)]; }
    WithTruthyExtend(required, optional, NamespaceDesc, OptStr(namespaceDesc));
    optional := optional + [(NamespaceDesc, OptStr(namespaceDesc))];
    assert optional == [(NamespaceDesc, OptStr(namespaceDesc))];
    r := Request(POST, BASE_HOST + NAMESPACE_BASE_URL, map[Data := data], None);
  }

  /**
    send_beat at config_helper/nacos.py:544-581: one heartbeat; the beat dict
    travels JSON-encoded. The log line before the request concatenates a
    truthy `groupName` onto a str, so a truthy group that is not a str raises
    `TypeError` before anything is built.
   */
  method SendBeat(serviceName: string, beat: Value, groupName: Value, ephemeral: Value, dumps: Value -> string)
    returns (r: Result<Request, PyError>)
    ensures r.Failure? <==> Truthy(groupName) && !groupName.PyStr?
    ensures r.Failure? ==> r.error == TypeError
    ensures r.Success? ==> r.value == Request(PUT, BASE_HOST + INSTANCE_BASE_URL + "/beat", map[Params := WithTruthy(
        map[ServiceName := PyStr(serviceName), Beat := PyStr(dumps(beat)), Ephemeral := ephemeral],
        [(GroupName, groupName)])], None)
  {
    if Truthy(groupName) && !groupName.PyStr? {
      return Failure(TypeError);
    }
    var params := map[ServiceName := PyStr(serviceName), Beat := PyStr(dumps(beat)), Ephemeral := ephemeral];
    ghost var required := params;
    if Truthy(groupName) { params := params[GroupName := groupName]; }
    WithTruthyExtend(required, [], GroupName, groupName);
    r := Success(Request(PUT, BASE_HOST + INSTANCE_BASE_URL + "/beat", map[Params := params], None));
  }

  /** get_namespace at config_helper/nacos.py:852-867: list the namespaces; the only builder with no section at all. */
  method GetNamespace() returns (r: Request)
    ensures r.httpMethod == GET && r.url == BASE_HOST + NAMESPACE_BASE_URL
    ensures r.sections == map[] && r.timeout == None
  {
    r := Request(GET, BASE_HOST + NAMESPACE_BASE_URL, map[], None);
  }

  /**
    update_namespace at config_helper/nacos.py:905-939, as written: the literal
    creates only a `data` section, but the description is written into
    `data["params"]`, so a non-empty description raises `KeyError('params')`
    before any request is made.
   */
  method UpdateNamespace(namespaceName: string, customNamespaceId: string, namespaceDesc: string)
    returns (r: Result<Request, PyError>)
    ensures namespaceDesc != "" <==> r == Failure(KeyError("params"))
    ensures namespaceDesc == "" ==> r == Success(Request(PUT, BASE_HOST + NAMESPACE_BASE_URL,
      map[Data := map[NamespaceName := PyStr(namespaceName), CustomNamespaceId := PyStr(customNamespaceId)]], None))
  {
    var data := Request(PUT, BASE_HOST + NAMESPACE_BASE_URL,
      map[Data := map[NamespaceName := PyStr(namespaceName), CustomNamespaceId := PyStr(customNamespaceId)]], None);
    if Truthy(PyStr(namespaceDesc)) {
      match SetItem(data, Params, NamespaceDesc, PyStr(namespaceDesc))
      case Failure(e) => return Failure(e);
      case Success(written) => data := written;
    }
    r := Success(data);
  }

  /**
    update_namespace with the description written into the section the
    literal creates, as create_namespace does: never raises, and the
    description is sent iff it is non-empty.
   */
  method UpdateNamespaceIntended(namespaceName: string, customNamespaceId: string, namespaceDesc: string)
    returns (r: Request)
    ensures r == Request(PUT, BASE_HOST + NAMESPACE_BASE_URL, map[Data := WithTruthy(
      map[NamespaceName := PyStr(namespaceName), CustomNamespaceId := PyStr(customNamespaceId)],
      [(NamespaceDesc, PyStr(namespaceDesc))])], None)
    ensures NamespaceDesc in r.sections[Data] <==> namespaceDesc != ""
  {
    var data := map[NamespaceName := PyStr(namespaceName), CustomNamespaceId := PyStr(customNamespaceId)];
    ghost var required := data;
    if Truthy(PyStr(namespaceDesc)) { data := data[NamespaceDesc := PyStr(namespaceDesc)]; }
    WithTruthyExtend(required, [], NamespaceDesc, PyStr(namespaceDesc));
    r := Request(PUT, BASE_HOST + NAMESPACE_BASE_URL, map[Data := data], None);
  }

  /** delete_namespace at config_helper/nacos.py:941-961: delete a namespace by id. */
  method DeleteNamespace(namespaceId: string) returns (r: Request)
    ensures r == Request(DELETE, BASE_HOST + NAMESPACE_BASE_URL, map[Data := map[NamespaceId := PyStr(namespaceId)]], None)
  {
    r := Request(DELETE, BASE_HOST + NAMESPACE_BASE_URL, map[Data := map[NamespaceId := PyStr(namespaceId)]], None);
  }

  // ---------------------------------------------------------------------------
  // Replies and the call boundary
  // ---------------------------------------------------------------------------

  /** An httpx response: its text, its body parsed as JSON (when it parses) and its elapsed time. */
  datatype HttpxReply = HttpxReply(text: string, json: Option<Value>, elapsed: Float)

  /**
    What a transport hands to `__responseHa`: on the QUIC path the sequence
    that perform_http_request returns (indexed as `res[0]` and `res[-1]`), on
    the httpx path the response object.
   */
  datatype Response = QuicResponse(items: seq<Value>) | HttpxResponse(reply: HttpxReply)

  /** The `(payload, latency)` pair that `call_api` returns. */
  datatype ApiResult = ApiResult(payload: Value, latency: Value)

  /** The pair returned for any failure inside the transport: `(False, -1)`. */
  const FAILURE := ApiResult(PyBool(false), PyInt(-1))

  /**
    The result of one `call_api`: the pair, or an exception raised after the
    transport's `try`, which escapes to the caller.
   */
  datatype CallOutcome = Returned(result: ApiResult) | Escaped(error: PyError)

  /** The only exceptions that escape `call_api`: those of the QUIC log line. */
  predicate EscapesFromCallApi(o: CallOutcome) {
    o.Escaped? ==> o.error == IndexError || o.error == TypeError || o.error == AttributeError("data")
  }

  /** The pair as the Python tuple the caller holds. */
  function AsTuple(r: ApiResult): Value {
    PyTuple([r.payload, r.latency])
  }

  /**
    The QUIC log line `[r.data for r in response[0]]` evaluates without
    raising: the reply is not empty, its first element is iterable, and every
    event in it has a `data` attribute (`hasData`).
   */
  predicate EventsReadable(items: seq<Value>, hasData: Value -> bool) {
    items != [] && Iterate(items[0]).Success? && forall e :: e in Iterate(items[0]).value ==> hasData(e)
  }

  /**
    `__responseHa` at config_helper/nacos.py:32-51: on the QUIC path the first
    and the last element (the fallback re-reads `res[0]`, so an empty sequence
    raises `IndexError`); on the httpx path the parsed JSON body and the
    elapsed seconds, or the raw text and `-1` when the body does not parse.
   */
  function ResponseHa(res: Response): (r: Result<ApiResult, PyError>)
    ensures r.Failure? <==> res.QuicResponse? && res.items == []
    ensures r.Failure? ==> r.error == IndexError
  {
    match res
    case QuicResponse(items) =>
      if items == [] then Failure(IndexError) else Success(ApiResult(items[0], items[|items| - 1]))
    case HttpxResponse(reply) =>
      if reply.json.Some? then Success(ApiResult(reply.json.value, PyFloat(reply.elapsed)))
      else Success(ApiResult(PyStr(reply.text), PyInt(-1)))
  }

  /**
    `call_api` at config_helper/nacos.py:53-91, with `__responseHa`. The
    transports are the functions `quic` and `httpx` from the request they are
    handed to what they deliver; `None` stands for an exception anywhere in
    building the configuration, connecting or sending, which the `try` turns
    into the failure pair. The httpx path first stores the timeout into the
    request dict. On the QUIC path the log line after the `try` reads
    `.data` of every event in `response[0]`, outside the `try`: an empty reply
    raises `IndexError`, a first element that is not iterable `TypeError`,
    and an event without that attribute `AttributeError`. `hasData` says
    which values are event objects carrying `data`; a faithful choice answers
    false for every str, so a dict or str first element (whose iteration
    yields strs) raises unless it is empty.
   */
  method CallApi(ssl: bool, data: Request, timeout: int,
                 quic: Request -> Option<seq<Value>>, hasData: Value -> bool, httpx: Request -> Option<HttpxReply>)
    returns (sent: Request, out: CallOutcome)
    ensures sent == if ssl then data else data.(timeout := Some(timeout))
    // any exception in the transport becomes the failure pair, on both paths
    ensures (if ssl then quic(sent).None? else httpx(sent).None?) ==> out == Returned(FAILURE)
    // httpx path: the parsed JSON and the elapsed seconds, or else the raw text and -1; nothing escapes
    ensures !ssl && httpx(sent).Some? && httpx(sent).value.json.Some? ==>
              out == Returned(ApiResult(httpx(sent).value.json.value, PyFloat(httpx(sent).value.elapsed)))
    ensures !ssl && httpx(sent).Some? && httpx(sent).value.json.None? ==>
              out == Returned(ApiResult(PyStr(httpx(sent).value.text), PyInt(-1)))
    // QUIC path: the first and the last element, unless the log line raises first
    ensures out.Escaped? <==> ssl && quic(sent).Some? && !EventsReadable(quic(sent).value, hasData)
    ensures out.Escaped? ==>
              out.error == if quic(sent).value == [] then IndexError
                           else if Iterate(quic(sent).value[0]).Failure? then TypeError
                           else AttributeError("data")
    ensures EscapesFromCallApi(out)
    ensures ssl && out.Returned? && quic(sent).Some? ==>
              out.result == ApiResult(quic(sent).value[0], quic(sent).value[|quic(sent).value| - 1])
    // the caller always holds a non-empty tuple, so `if not res` never fires
    ensures out.Returned? ==> Truthy(AsTuple(out.result))
  {
    sent := data;
    var response: Response;
    if ssl {
      var delivered := quic(sent);
      if delivered.None? {
        return sent, Returned(FAILURE);
      }
      if delivered.value == [] {
        return sent, Escaped(IndexError);
      }
      match Iterate(delivered.value[0]) {
        case Failure(e) => return sent, Escaped(e);
        case Success(events) =>
          if exists e :: e in events && !hasData(e) {
            return sent, Escaped(AttributeError("data"));
          }
      }
      response := QuicResponse(delivered.value);
    } else {
      sent := sent.(timeout := Some(timeout));
      var delivered := httpx(sent);
      if delivered.None? {
        return sent, Returned(FAILURE);
      }
      response := HttpxResponse(delivered.value);
    }
    var normalised := ResponseHa(response);
    out := Returned(normalised.value);
  }
}
