/** The vSphere client the collector talks through: configuration, the counter catalog,
    host listing and single-value performance queries. */
module Govmomi {
  import opened Wrappers
  import opened Vim
  import opened Connection

  /** Real-time sampling interval: the only one that returns the most recent sample. */
  const DefaultIntervalId: Int32 := 20
  /** Instance selector meaning "all instances". */
  const DefaultMetricInstance := "*"
  /** Full name of the consumed-memory counter, in kilobytes. */
  const MemConsumedKb := "mem.consumed.average"

  /** A task configuration: a map whose values are typed, and which may lack keys. */
  datatype ConfigValue = Str(s: string) | Flag(b: bool) | Number(i: int)
  type Config = map<string, ConfigValue>

  // The plugin library's getter errors.
  const ErrConfigNotFound := "config item not found"
  const ErrNotAString := "config item is not a string"
  const ErrNotABool := "config item is not a boolean"

  function GetString(cfg: Config, key: string): Result<string> {
    if key !in cfg then Err(ErrConfigNotFound)
    else if cfg[key].Str? then Ok(cfg[key].s)
    else Err(ErrNotAString)
  }

  function GetBool(cfg: Config, key: string): Result<bool> {
    if key !in cfg then Err(ErrConfigNotFound)
    else if cfg[key].Flag? then Ok(cfg[key].b)
    else Err(ErrNotABool)
  }

  predicate HasString(cfg: Config, key: string) {
    key in cfg && cfg[key].Str?
  }

  /** The five connection settings are present with the right types. */
  predicate HasConnArgs(cfg: Config) {
    && HasString(cfg, "url") && HasString(cfg, "username") && HasString(cfg, "password")
    && "insecure" in cfg && cfg["insecure"].Flag?
    && HasString(cfg, "clusterName")
  }

  /** Reads the settings in the order url, username, password, insecure, clusterName,
      stopping at the first one that is missing or mistyped. */
  function ReadConfig(cfg: Config): (r: Result<ConnArgs>)
    ensures r.Ok? <==> HasConnArgs(cfg)
    ensures r.Ok? ==> r.value == ConnArgs(cfg["url"].s, cfg["username"].s, cfg["password"].s, cfg["insecure"].b, cfg["clusterName"].s)
    ensures "url" !in cfg ==> r == Err(ErrConfigNotFound)
  {
    var url :- GetString(cfg, "url");
    var username :- GetString(cfg, "username");
    var password :- GetString(cfg, "password");
    var insecure :- GetBool(cfg, "insecure");
    var clusterName :- GetString(cfg, "clusterName");
    Ok(ConnArgs(url, username, password, insecure, clusterName))
  }

  /** The cluster query an Init would send, if any, is answered by an error or a non-empty list. */
  predicate ClusterListedFor(remote: Remote, h: Handles, cfg: Config) {
    ReadConfig(cfg).Ok? ==> ClusterListed(remote, h, ReadConfig(cfg).value)
  }

  /** Init as a whole: the settings first (no handle is touched when one is missing),
      then the handle chain. */
  function InitSpec(remote: Remote, h: Handles, cfg: Config): (out: (Handles, Outcome))
    requires ClusterListedFor(remote, h, cfg)
    ensures Keeps(h, out.0)
    ensures out.1.Pass? <==> HasConnArgs(cfg) && out.0.Complete()
    ensures !HasConnArgs(cfg) ==> out.0 == h
  {
    match ReadConfig(cfg)
    case Err(e) => (h, Fail(e))
    case Ok(args) => Connect(remote, h, args, ClientHelpers)
  }

  /** The name a counter is looked up by: group, name and rollup joined by dots. */
  function FullName(c: PerfCounterInfo): string {
    c.groupKey + "." + c.nameKey + "." + c.rollupType
  }

  /** The counter a name resolves to: the LAST one in the catalog with that full name. */
  function LookupCounter(counters: seq<PerfCounterInfo>, name: string): (r: Option<PerfCounterInfo>)
    ensures r.None? <==> forall i :: 0 <= i < |counters| ==> FullName(counters[i]) != name
    ensures r.Some? ==> exists i :: 0 <= i < |counters| && counters[i] == r.value && FullName(counters[i]) == name
                                    && forall j :: i < j < |counters| ==> FullName(counters[j]) != name
  {
    if |counters| == 0 then None
    else if FullName(counters[|counters| - 1]) == name then Some(counters[|counters| - 1])
    else
      var n := |counters| - 1;
      var init := counters[..n];
      var r := LookupCounter(init, name);
      assert r.None? ==> forall i :: 0 <= i < |counters| ==> FullName(counters[i]) != name by {
        if r.None? {
          forall i | 0 <= i < |counters|
            ensures FullName(counters[i]) != name
          {
            if i < n { assert counters[i] == init[i]; }
          }
        }
      }
      assert r.Some? ==> exists i :: 0 <= i < |counters| && counters[i] == r.value && FullName(counters[i]) == name
                                    && forall j :: i < j < |counters| ==> FullName(counters[j]) != name by {
        if r.Some? {
          var i :| 0 <= i < |init| && init[i] == r.value && FullName(init[i]) == name
                   && forall j :: i < j < |init| ==> FullName(init[j]) != name;
          assert counters[i] == init[i];
          forall j | i < j < |counters|
            ensures FullName(counters[j]) != name
          {
            if j < n { assert counters[j] == init[j]; }
          }
        }
      }
      r
  }

  /** The request sent for one counter of one host: a single spec on the host's reference,
      real-time interval, one sample, all instances of that one counter. */
  function QueryFor(client: Session, metric: PerfCounterInfo, host: HostSystem): (q: QueryPerf)
    ensures q.perfManager == client.perfManager && |q.querySpec| == 1
    ensures q.querySpec[0].entity == host.self && q.querySpec[0].intervalId == 20
    ensures q.querySpec[0].maxSample == 1 && q.querySpec[0].format == "normal"
    ensures q.querySpec[0].metricId == [PerfMetricId(metric.key, "*")]
  {
    QueryPerf(client.perfManager,
      [PerfQuerySpec(host.self, DefaultIntervalId, 1, "normal", [PerfMetricId(metric.key, DefaultMetricInstance)])])
  }

  /** The response must hold exactly one entity, with exactly one series, with exactly one
      sample; that sample is the value. */
  function SingleValue(resp: QueryPerfResponse): (r: Result<Int64>)
    ensures r.Ok? <==> |resp.returnval| == 1 && |resp.returnval[0].value| == 1 && |resp.returnval[0].value[0].value| == 1
    ensures r.Ok? ==> r.value == resp.returnval[0].value[0].value[0]
  {
    if |resp.returnval| != 1 then
      Err("Incorrect number of QueryPerf results (for metrics)")
    else
      var perfEntityResults := resp.returnval[0];
      if |perfEntityResults.value| != 1 then
        Err("Incorrect number (" + NatToString(|perfEntityResults.value|) + ") of QueryPerf results (for entities)")
      else
        var instanceIntResults := perfEntityResults.value[0];
        if |instanceIntResults.value| != 1 then
          Err("Incorrect number (" + NatToString(|instanceIntResults.value|) + ") of QueryPerf results (for instances)")
        else
          Ok(instanceIntResults.value[0])
  }

  /** CallQueryPerf: resolve the name, query the host for that counter, extract the one value.
      The client is only needed once the name has resolved. */
  function CallQueryPerfSpec(remote: Remote, client: Option<Session>, counters: seq<PerfCounterInfo>, host: HostSystem, name: string): Result<Int64>
    requires LookupCounter(counters, name).Some? ==> client.Some?
  {
    match LookupCounter(counters, name)
    case None => Err("metric " + name + " not found in vSphere")
    case Some(metric) =>
      match remote.queryPerf(client.value, QueryFor(client.value, metric, host))
      case Err(e) => Err("unable to call QueryPerf: " + e)
      case Ok(results) => SingleValue(results)
  }

  /** A name absent from the catalog fails before any query is sent: the answer does not
      depend on the server or on the client. */
  lemma UnknownCounterSendsNoQuery(remote: Remote, client: Option<Session>, remote': Remote, client': Option<Session>,
                                   counters: seq<PerfCounterInfo>, host: HostSystem, name: string)
    requires forall i :: 0 <= i < |counters| ==> FullName(counters[i]) != name
    ensures CallQueryPerfSpec(remote, client, counters, host, name) == Err("metric " + name + " not found in vSphere")
    ensures CallQueryPerfSpec(remote, client, counters, host, name) == CallQueryPerfSpec(remote', client', counters, host, name)
  {
  }

  /** When the name resolves, the one query sent asks the host for the last counter of
      that name, with the fixed real-time shape. */
  lemma QueryTargetsLastCounter(client: Session, counters: seq<PerfCounterInfo>, host: HostSystem, name: string)
    requires LookupCounter(counters, name).Some?
    ensures var q := QueryFor(client, LookupCounter(counters, name).value, host);
      && q.perfManager == client.perfManager && |q.querySpec| == 1
      && q.querySpec[0].entity == host.self && q.querySpec[0].intervalId == 20
      && q.querySpec[0].maxSample == 1 && q.querySpec[0].format == "normal"
      && |q.querySpec[0].metricId| == 1 && q.querySpec[0].metricId[0].instance == "*"
      && exists i :: 0 <= i < |counters| && FullName(counters[i]) == name
                     && counters[i].key == q.querySpec[0].metricId[0].counterId
                     && forall j :: i < j < |counters| ==> FullName(counters[j]) != name
  {
  }

  /** GetHosts: the cluster's hosts as the collector loads them. */
  function HostsOf(remote: Remote, pc: Collector, cluster: ClusterComputeResource): Result<seq<HostSystem>> {
    match remote.retrieveHosts(pc, cluster.host)
    case Err(e) => Err("Unable to retrieve hosts: " + e)
    case Ok(hosts) => Ok(hosts.Items())
  }

  /** The client object: four lazily set handles and the counter catalog of the current cycle. */
  class GovmomiClient {
    var client: Option<Session>
    var finder: Option<Finder>
    var pc: Option<Collector>
    var cluster: Option<ClusterComputeResource>
    var metrics: Slice<PerfCounterInfo>

    constructor ()
      ensures HandleState() == NoHandles && metrics == Nil
    {
      client, finder, pc, cluster := None, None, None, None;
      metrics := Nil;
    }

    function HandleState(): Handles
      reads this
    {
      Handles(client, finder, pc, cluster)
    }

    /** Reads the settings, then fills each unset handle in turn. */
    method Init(remote: Remote, cfg: Config) returns (err: Outcome)
      requires ClusterListedFor(remote, HandleState(), cfg)
      modifies this`client, this`finder, this`pc, this`cluster
      ensures (HandleState(), err) == InitSpec(remote, old(HandleState()), cfg)
    {
      var url := GetString(cfg, "url");
      if url.Err? { return Fail(url.msg); }
      var username := GetString(cfg, "username");
      if username.Err? { return Fail(username.msg); }
      var password := GetString(cfg, "password");
      if password.Err? { return Fail(password.msg); }
      var insecure := GetBool(cfg, "insecure");
      if insecure.Err? { return Fail(insecure.msg); }
      var clusterName := GetString(cfg, "clusterName");
      if clusterName.Err? { return Fail(clusterName.msg); }
      var args := ConnArgs(url.value, username.value, password.value, insecure.value, clusterName.value);
      assert ReadConfig(cfg) == Ok(args);
      err := Connect(remote, args);
    }

    /** Fills each unset handle in turn, stopping at the first failure. */
    method Connect(remote: Remote, args: ConnArgs) returns (err: Outcome)
      requires ClusterListed(remote, HandleState(), args)
      modifies this`client, this`finder, this`pc, this`cluster
      ensures (HandleState(), err) == Connection.Connect(remote, old(HandleState()), args, ClientHelpers)
    {
      if client.None? {
        var c := remote.newClient(args.url, args.username, args.password, args.insecure);
        if c.Err? { return Fail("unable to initialize vSphere client: " + c.msg); }
        client := Some(c.value);
      }
      if finder.None? {
        var f := InitializeFinder(remote, client.value, ClientHelpers);
        if f.Err? { return Fail("unable to initialize vSphere finder: " + f.msg); }
        finder := Some(f.value);
      }
      if pc.None? {
        pc := Some(remote.defaultCollector(client.value));
      }
      if cluster.None? {
        var cl := FindCluster(remote, finder.value, pc.value, args.clusterName, ClientHelpers);
        if cl.Err? { return Fail("unable to find cluster: " + cl.msg); }
        cluster := Some(cl.value);
      }
      return Pass;
    }

    /** Replaces the catalog wholesale on success; leaves it as it was on error. */
    method RetrieveMetrics(remote: Remote) returns (err: Outcome)
      requires client.Some?
      modifies this`metrics
      ensures remote.perfCounters(client.value).Ok? ==> err == Pass && metrics == remote.perfCounters(client.value).value
      ensures remote.perfCounters(client.value).Err? ==> err == Fail(remote.perfCounters(client.value).msg) && metrics == old(metrics)
    {
      var perfManager := remote.perfCounters(client.value);
      if perfManager.Err? {
        return Fail(perfManager.msg);
      }
      metrics := perfManager.value;
      return Pass;
    }

    method GetHosts(remote: Remote) returns (r: Result<seq<HostSystem>>)
      requires pc.Some? && cluster.Some?
      ensures r == HostsOf(remote, pc.value, cluster.value)
    {
      var hosts := remote.retrieveHosts(pc.value, cluster.value.host);
      if hosts.Err? {
        return Err("Unable to retrieve hosts: " + hosts.msg);
      }
      return Ok(hosts.value.Items());
    }

    /** One host's value of one counter, found by full name in the catalog. */
    method CallQueryPerf(remote: Remote, host: HostSystem, metricName: string) returns (r: Result<Int64>)
      requires LookupCounter(metrics.Items(), metricName).Some? ==> client.Some?
      ensures r == CallQueryPerfSpec(remote, client, metrics.Items(), host, metricName)
    {
      var counters := metrics.Items();
      var metric := PerfCounterInfo(0, "", "", "");
      var found := false;
      for i := 0 to |counters|
        invariant found == LookupCounter(counters[..i], metricName).Some?
        invariant found ==> metric == LookupCounter(counters[..i], metricName).value
      {
        var pc := counters[i];
        var fullName := pc.groupKey + "." + pc.nameKey + "." + pc.rollupType;
        assert counters[..i + 1][..i] == counters[..i];
        if fullName == metricName {
          metric := pc;
          found := true;
        }
      }
      assert counters[..|counters|] == counters;

      if !found {
        return Err("metric " + metricName + " not found in vSphere");
      }

      var metricId := PerfMetricId(metric.key, DefaultMetricInstance);
      var querySpec := PerfQuerySpec(host.self, DefaultIntervalId, 1, "normal", [metricId]);
      var query := QueryPerf(client.value.perfManager, [querySpec]);
      var results := remote.queryPerf(client.value, query);
      if results.Err? {
        return Err("unable to call QueryPerf: " + results.msg);
      }
      r := SingleValue(results.value);
    }
  }
}
