/** The per-cycle fetch cache over the vSphere API: counters, hosts, datastores and each
    host's virtual machines are fetched at most once until the cache is cleared. */
module Api {
  import opened Wrappers
  import opened Vim
  import opened Connection

  /** The four cache slots. `vms` is a map created on first use, keyed by host reference. */
  datatype Cache = Cache(
    datastores: Slice<Datastore>,
    hosts: Slice<HostSystem>,
    vms: Option<map<string, Slice<VirtualMachine>>>,
    metrics: Slice<PerfCounterInfo>)

  const Cleared := Cache(Nil, Nil, None, Nil)

  /** A remote fetch the cache made. */
  datatype Fetch = CounterFetch | HostFetch | DatastoreFetch | VmFetch(hostKey: string)

  /** What one cache operation does: the new cache, the answer, and the fetches it made. */
  datatype Step<T> = Step(cache: Cache, result: Result<T>, fetched: seq<Fetch>)

  /** A slot of the VM map; a missing key reads as nil, as in Go. */
  function VmsAt(vms: map<string, Slice<VirtualMachine>>, key: string): Slice<VirtualMachine> {
    if key in vms then vms[key] else Nil
  }

  function CountersStep(remote: Remote, client: Option<Session>, c: Cache): (s: Step<Slice<PerfCounterInfo>>)
    requires c.metrics.Nil? ==> client.Some?
    ensures c.metrics.Made? ==> s == Step(c, Ok(c.metrics), [])
    ensures c.metrics.Nil? ==>
      && s.fetched == [CounterFetch]
      && (s.result.Ok? <==> remote.perfCounters(client.value).Ok?)
      && (s.result.Ok? ==> s.result.value == remote.perfCounters(client.value).value)
      && (s.result.Err? ==> s.result.msg == remote.perfCounters(client.value).msg)
    ensures s.cache.datastores == c.datastores && s.cache.hosts == c.hosts && s.cache.vms == c.vms
    ensures s.result.Ok? ==> s.result.value == s.cache.metrics
    ensures s.result.Err? ==> s.cache == c
  {
    if c.metrics.Nil? then
      match remote.perfCounters(client.value)
      case Err(e) => Step(c, Err(e), [CounterFetch])
      case Ok(counters) => Step(c.(metrics := counters), Ok(counters), [CounterFetch])
    else Step(c, Ok(c.metrics), [])
  }

  function HostsStep(remote: Remote, pc: Option<Collector>, cluster: Option<ClusterComputeResource>, c: Cache): (s: Step<Slice<HostSystem>>)
    requires c.hosts.Nil? ==> cluster.Some? && (|cluster.value.host| != 0 ==> pc.Some?)
    ensures c.hosts.Made? || |cluster.value.host| == 0 ==> s == Step(c, Ok(c.hosts), [])
    ensures c.hosts.Nil? && |cluster.value.host| != 0 ==>
      var fetched := remote.retrieveHosts(pc.value, cluster.value.host);
      && s.fetched == [HostFetch]
      && (s.result.Ok? <==> fetched.Ok?)
      && (s.result.Ok? ==> s.result.value == fetched.value)
      && (s.result.Err? ==> s.result.msg == "unable to retrieve hosts: " + fetched.msg)
    ensures s.cache.datastores == c.datastores && s.cache.metrics == c.metrics && s.cache.vms == c.vms
    ensures s.result.Ok? ==> s.result.value == s.cache.hosts
    ensures s.result.Err? ==> s.cache == c
  {
    if c.hosts.Nil? && |cluster.value.host| != 0 then
      match remote.retrieveHosts(pc.value, cluster.value.host)
      case Err(e) => Step(c, Err("unable to retrieve hosts: " + e), [HostFetch])
      case Ok(hosts) => Step(c.(hosts := hosts), Ok(hosts), [HostFetch])
    else Step(c, Ok(c.hosts), [])
  }

  function DatastoresStep(remote: Remote, pc: Option<Collector>, cluster: Option<ClusterComputeResource>, c: Cache): (s: Step<Slice<Datastore>>)
    requires c.datastores.Nil? ==> cluster.Some? && (|cluster.value.datastore| != 0 ==> pc.Some?)
    ensures c.datastores.Made? || |cluster.value.datastore| == 0 ==> s == Step(c, Ok(c.datastores), [])
    ensures c.datastores.Nil? && |cluster.value.datastore| != 0 ==>
      var fetched := remote.retrieveDatastores(pc.value, cluster.value.datastore);
      && s.fetched == [DatastoreFetch]
      && (s.result.Ok? <==> fetched.Ok?)
      && (s.result.Ok? ==> s.result.value == fetched.value)
      && (s.result.Err? ==> s.result.msg == "unable to retrieve datastores: " + fetched.msg)
    ensures s.cache.hosts == c.hosts && s.cache.metrics == c.metrics && s.cache.vms == c.vms
    ensures s.result.Ok? ==> s.result.value == s.cache.datastores
    ensures s.result.Err? ==> s.cache == c
  {
    if c.datastores.Nil? && |cluster.value.datastore| != 0 then
      match remote.retrieveDatastores(pc.value, cluster.value.datastore)
      case Err(e) => Step(c, Err("unable to retrieve datastores: " + e), [DatastoreFetch])
      case Ok(datastores) => Step(c.(datastores := datastores), Ok(datastores), [DatastoreFetch])
    else Step(c, Ok(c.datastores), [])
  }

  /** The host's slot is written with what the fetch produced BEFORE the error is looked at:
      a failed fetch stores the empty non-nil slice it started from. */
  function VmsStep(remote: Remote, pc: Option<Collector>, host: HostSystem, c: Cache): (s: Step<Slice<VirtualMachine>>)
    requires |host.vm| != 0 ==> pc.Some?
    ensures s.cache.vms.Some?
    ensures c.vms.Some? && VmsAt(c.vms.value, host.self.value).Made? ==>
      s == Step(c, Ok(VmsAt(c.vms.value, host.self.value)), [])
    ensures s.fetched != [] <==>
      VmsAt(if c.vms.Some? then c.vms.value else map[], host.self.value).Nil? && |host.vm| != 0
    ensures var vms := if c.vms.Some? then c.vms.value else map[];
      s.fetched == [] ==> s == Step(c.(vms := Some(vms)), Ok(VmsAt(vms, host.self.value)), [])
    ensures s.fetched != [] ==>
      && s.fetched == [VmFetch(host.self.value)]
      && match remote.retrieveVMs(pc.value, host.vm)
         case Ok(vms) => s.result == Ok(Made(vms))
         case Err(e) => s.result == Err("unable to retrieve virtual machines: " + e)
                        && VmsAt(s.cache.vms.value, host.self.value) == Made([])
    ensures s.cache.datastores == c.datastores && s.cache.hosts == c.hosts && s.cache.metrics == c.metrics
    ensures forall k :: k != host.self.value ==> VmsAt(s.cache.vms.value, k) == VmsAt(if c.vms.Some? then c.vms.value else map[], k)
    ensures s.result.Ok? ==> s.result.value == VmsAt(s.cache.vms.value, host.self.value)
  {
    var vms := if c.vms.None? then map[] else c.vms.value;
    var key := host.self.value;
    if VmsAt(vms, key).Nil? && |host.vm| != 0 then
      var fetched := remote.retrieveVMs(pc.value, host.vm);
      var vmsData := if fetched.Ok? then Made(fetched.value) else Made([]);
      var c' := c.(vms := Some(vms[key := vmsData]));
      if fetched.Err? then Step(c', Err("unable to retrieve virtual machines: " + fetched.msg), [VmFetch(key)])
      else Step(c', Ok(vmsData), [VmFetch(key)])
    else Step(c.(vms := Some(vms)), Ok(VmsAt(vms, key)), [])
  }

  /** Counters are fetched only into an empty slot: once a fetch has filled it, the next
      call makes no fetch and answers the same, until the cache is cleared. */
  lemma CountersFetchedOnce(remote: Remote, client: Option<Session>, c: Cache, remote': Remote, client': Option<Session>)
    requires c.metrics.Nil? ==> client.Some?
    requires CountersStep(remote, client, c).result.Ok? && CountersStep(remote, client, c).result.value.Made?
    ensures var s := CountersStep(remote, client, c);
            CountersStep(remote', client', s.cache) == Step(s.cache, s.result, [])
  {
  }

  /** After ClearCache the next counter request fetches again. */
  lemma ClearedCacheFetchesCounters(remote: Remote, client: Session)
    ensures CountersStep(remote, Some(client), Cleared).fetched == [CounterFetch]
  {
  }

  /** A failed counter fetch leaves the slot nil, so the next call fetches again. */
  lemma FailedCounterFetchRetries(remote: Remote, client: Session, c: Cache, remote': Remote)
    requires CountersStep(remote, Some(client), c).result.Err?
    ensures CountersStep(remote, Some(client), c).cache.metrics.Nil?
    ensures CountersStep(remote', Some(client), CountersStep(remote, Some(client), c).cache).fetched == [CounterFetch]
  {
  }

  /** No host fetch when the slot is set or when the cluster lists no hosts; in the latter
      case the answer is nil with no error. */
  lemma HostsWithoutFetch(remote: Remote, pc: Option<Collector>, cluster: ClusterComputeResource, c: Cache)
    requires c.hosts.Made? || |cluster.host| == 0
    ensures HostsStep(remote, pc, Some(cluster), c) == Step(c, Ok(c.hosts), [])
    ensures c.hosts.Nil? ==> HostsStep(remote, pc, Some(cluster), c).result == Ok(Nil)
  {
  }

  /** A host with no VM references causes no fetch and, when its slot is nil or the map
      does not exist yet, yields nil with no error. */
  lemma NoVmRefsNoFetch(remote: Remote, pc: Option<Collector>, host: HostSystem, c: Cache)
    requires |host.vm| == 0
    ensures VmsStep(remote, pc, host, c).fetched == []
    ensures (c.vms.None? || VmsAt(c.vms.value, host.self.value).Nil?) ==>
      VmsStep(remote, pc, host, c).result == Ok(Nil)
  {
  }

  /** A VM list that was fetched is stored for the host: the next call for the same host
      answers it again and fetches nothing, whatever the server would now answer. */
  lemma FetchedVmsAreCached(remote: Remote, pc: Option<Collector>, host: HostSystem, c: Cache, remote': Remote)
    requires |host.vm| != 0 ==> pc.Some?
    requires VmsStep(remote, pc, host, c).result.Ok? && VmsStep(remote, pc, host, c).fetched != []
    ensures var s := VmsStep(remote, pc, host, c);
            && s.result.value == Made(remote.retrieveVMs(pc.value, host.vm).value)
            && VmsStep(remote', pc, host, s.cache) == Step(s.cache, s.result, [])
  {
  }

  /** No datastore fetch when the slot is set or when the cluster lists no datastores; in
      the latter case the answer is nil with no error. */
  lemma DatastoresWithoutFetch(remote: Remote, pc: Option<Collector>, cluster: ClusterComputeResource, c: Cache)
    requires c.datastores.Made? || |cluster.datastore| == 0
    ensures DatastoresStep(remote, pc, Some(cluster), c) == Step(c, Ok(c.datastores), [])
    ensures c.datastores.Nil? ==> DatastoresStep(remote, pc, Some(cluster), c).result == Ok(Nil)
  {
  }

  /** The failed-fetch quirk: after a failed VM fetch for a host, the next call for the same
      host answers the stored empty slice with no error and fetches nothing. */
  lemma FailedVmFetchIsCached(remote: Remote, pc: Option<Collector>, host: HostSystem, c: Cache, remote': Remote)
    requires |host.vm| != 0 ==> pc.Some?
    requires VmsStep(remote, pc, host, c).result.Err?
    ensures var s := VmsStep(remote, pc, host, c);
            VmsStep(remote', pc, host, s.cache) == Step(s.cache, Ok(Made([])), [])
  {
  }

  /** The Go object: API handles and cache slots, with a log of the fetches made. */
  class GovmomiApi {
    var client: Option<Session>
    var finder: Option<Finder>
    var pc: Option<Collector>
    var cluster: Option<ClusterComputeResource>

    var datastores: Slice<Datastore>
    var hosts: Slice<HostSystem>
    var vms: Option<map<string, Slice<VirtualMachine>>>
    var metrics: Slice<PerfCounterInfo>

    ghost var fetches: seq<Fetch>

    constructor ()
      ensures HandleState() == NoHandles && CacheState() == Cleared && fetches == []
    {
      client, finder, pc, cluster := None, None, None, None;
      datastores, hosts, vms, metrics := Nil, Nil, None, Nil;
      fetches := [];
    }

    function HandleState(): Handles
      reads this
    {
      Handles(client, finder, pc, cluster)
    }

    function CacheState(): Cache
      reads this
    {
      Cache(datastores, hosts, vms, metrics)
    }

    method Init(remote: Remote, url: string, username: string, password: string, clusterName: string, insecure: bool) returns (err: Outcome)
      modifies this`client, this`finder, this`pc, this`cluster
      ensures (HandleState(), err) == Connect(remote, old(HandleState()), ConnArgs(url, username, password, insecure, clusterName), ApiHelpers)
    {
      if client.None? {
        var c := remote.newClient(url, username, password, insecure);
        if c.Err? { return Fail("unable to initialize vSphere client: " + c.msg); }
        client := Some(c.value);
      }
      if finder.None? {
        var f := InitializeFinder(remote, client.value, ApiHelpers);
        if f.Err? { return Fail("unable to initialize vSphere finder: " + f.msg); }
        finder := Some(f.value);
      }
      if pc.None? {
        pc := Some(remote.defaultCollector(client.value));
      }
      if cluster.None? {
        var cl := FindCluster(remote, finder.value, pc.value, clusterName, ApiHelpers);
        if cl.Err? { return Fail("unable to find cluster: " + cl.msg); }
        cluster := Some(cl.value);
      }
      return Pass;
    }

    /** Empties the four cache slots; the API handles stay. */
    method ClearCache()
      modifies this`datastores, this`hosts, this`vms, this`metrics
      ensures CacheState() == Cleared
      ensures HandleState() == old(HandleState())
    {
      datastores := Nil;
      hosts := Nil;
      vms := None;
      metrics := Nil;
    }

    method RetrieveCounters(remote: Remote) returns (r: Result<Slice<PerfCounterInfo>>)
      requires metrics.Nil? ==> client.Some?
      modifies this`metrics, this`fetches
      ensures var s := CountersStep(remote, client, old(CacheState()));
              CacheState() == s.cache && r == s.result && fetches == old(fetches) + s.fetched
    {
      if metrics.Nil? {
        fetches := fetches + [CounterFetch];
        var perfManager := remote.perfCounters(client.value);
        if perfManager.Err? {
          return Err(perfManager.msg);
        }
        metrics := perfManager.value;
      }
      return Ok(metrics);
    }

    /** Datastores are not collected yet; the slot follows the hosts' policy. */
    method RetrieveDatastores(remote: Remote) returns (r: Result<Slice<Datastore>>)
      requires datastores.Nil? ==> cluster.Some? && (|cluster.value.datastore| != 0 ==> pc.Some?)
      modifies this`datastores, this`fetches
      ensures var s := DatastoresStep(remote, pc, cluster, old(CacheState()));
              CacheState() == s.cache && r == s.result && fetches == old(fetches) + s.fetched
    {
      if datastores.Nil? {
        if |cluster.value.datastore| != 0 {
          fetches := fetches + [DatastoreFetch];
          var loaded := remote.retrieveDatastores(pc.value, cluster.value.datastore);
          if loaded.Err? {
            return Err("unable to retrieve datastores: " + loaded.msg);
          }
          datastores := loaded.value;
        }
      }
      return Ok(datastores);
    }

    method RetrieveHosts(remote: Remote) returns (r: Result<Slice<HostSystem>>)
      requires hosts.Nil? ==> cluster.Some? && (|cluster.value.host| != 0 ==> pc.Some?)
      modifies this`hosts, this`fetches
      ensures var s := HostsStep(remote, pc, cluster, old(CacheState()));
              CacheState() == s.cache && r == s.result && fetches == old(fetches) + s.fetched
    {
      if hosts.Nil? {
        if |cluster.value.host| != 0 {
          fetches := fetches + [HostFetch];
          var loaded := remote.retrieveHosts(pc.value, cluster.value.host);
          if loaded.Err? {
            return Err("unable to retrieve hosts: " + loaded.msg);
          }
          hosts := loaded.value;
        }
      }
      return Ok(hosts);
    }

    method RetrieveVMs(remote: Remote, host: HostSystem) returns (r: Result<Slice<VirtualMachine>>)
      requires |host.vm| != 0 ==> pc.Some?
      modifies this`vms, this`fetches
      ensures var s := VmsStep(remote, pc, host, old(CacheState()));
              CacheState() == s.cache && r == s.result && fetches == old(fetches) + s.fetched
    {
      if vms.None? {
        vms := Some(map[]);
      }
      var key := host.self.value;
      if VmsAt(vms.value, key).Nil? {
        if |host.vm| != 0 {
          fetches := fetches + [VmFetch(key)];
          var vmsData := Made([]);
          var loaded := remote.retrieveVMs(pc.value, host.vm);
          if loaded.Ok? {
            vmsData := Made(loaded.value);
          }
          vms := Some(vms.value[key := vmsData]);
          if loaded.Err? {
            return Err("unable to retrieve virtual machines: " + loaded.msg);
          }
        }
      }
      return Ok(VmsAt(vms.value, key));
    }
  }
}
