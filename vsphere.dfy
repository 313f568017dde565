/** The collection entry point. A request names one host memory figure in a namespace
    intel/vmware/vsphere/host/<host>/<leaf> whose host element is dynamic; the answer is
    one metric per selected host, or an error and no metrics at all. */
module Vsphere {
  import opened Wrappers
  import opened Vim
  import opened Connection
  import opened Govmomi

  const Vendor := "intel"
  const Class := "vmware"
  const PluginName := "vsphere"
  /** Position of the host element in a namespace. */
  const HostPosition := 4
  const Wildcard := "*"

  // The three leaves this collector serves.
  const MemUsage := "memUsage"
  const MemFree := "memFree"
  const MemAvailable := "memAvailable"

  const KilobytesPerMegabyte := 1024
  const BytesPerMegabyte := 1024 * 1024

  /** A namespace element is dynamic when it has a name. */
  datatype NamespaceElement = NamespaceElement(value: string, name: string, description: string)
  type Namespace = seq<NamespaceElement>

  /** A requested metric: its namespace, unit, version and the plugin configuration. */
  datatype Request = Request(namespace: Namespace, unit: string, version: int, config: Config)

  /** A collected metric (its timestamp is not modelled). */
  datatype Metric = Metric(namespace: Namespace, data: Int64, unit: string, version: int)

  /** Positions of the dynamic elements, in increasing order. */
  function DynamicIndices(ns: Namespace): (r: seq<nat>)
    ensures forall k :: 0 <= k < |r| ==> r[k] < |ns| && ns[r[k]].name != ""
    ensures forall i :: 0 <= i < |ns| && ns[i].name != "" ==> i in r
    ensures forall k, l :: 0 <= k < l < |r| ==> r[k] < r[l]
  {
    if |ns| == 0 then []
    else DynamicIndices(ns[..|ns| - 1]) + (if ns[|ns| - 1].name != "" then [|ns| - 1] else [])
  }

  function IsDynamic(ns: Namespace): (bool, seq<nat>) {
    var dynInd := DynamicIndices(ns);
    (|dynInd| > 0, dynInd)
  }

  /** The shape check: the namespace is dynamic, and its one dynamic element is the host. */
  predicate WellFormed(ns: Namespace) {
    var (isDynamic, dynInd) := IsDynamic(ns);
    isDynamic && |dynInd| == 1 && dynInd[0] == HostPosition
  }

  function Leaf(ns: Namespace): string {
    if |ns| == 0 then "" else ns[|ns| - 1].value
  }

  function Selector(ns: Namespace): string {
    if HostPosition < |ns| then ns[HostPosition].value else ""
  }

  /** Go's integer division, which truncates toward zero. */
  function Quot(a: int, b: int): (q: int)
    requires b > 0
    ensures 0 <= a ==> 0 <= q && q * b <= a < q * b + b
    ensures a < 0 ==> q <= 0 && q * b - b < a <= q * b
  {
    if a >= 0 then a / b else -((-a) / b)
  }

  /** Memory in use, in whole megabytes, from the consumed counter in kilobytes. */
  function MemUsageMb(consumedKb: Int64): (mb: Int64)
    ensures 0 <= consumedKb ==> 0 <= mb && mb * 1024 <= consumedKb < mb * 1024 + 1024
    ensures consumedKb < 0 ==> mb <= 0 && mb * 1024 - 1024 < consumedKb <= mb * 1024
  {
    Quot(consumedKb, KilobytesPerMegabyte)
  }

  /** Installed memory, in whole megabytes, from the host's memory size in bytes. */
  function MemAvailableMb(memorySize: Int64): (mb: Int64)
    ensures 0 <= memorySize ==> 0 <= mb && mb * 1048576 <= memorySize < mb * 1048576 + 1048576
    ensures memorySize < 0 ==> mb <= 0 && mb * 1048576 - 1048576 < memorySize <= mb * 1048576
  {
    Quot(memorySize, BytesPerMegabyte)
  }

  /** Free memory: each figure truncated on its own, then subtracted. The difference
      always fits in 64 bits. */
  function MemFreeMb(memorySize: Int64, consumedKb: Int64): (mb: Int64)
    ensures mb == MemAvailableMb(memorySize) - MemUsageMb(consumedKb)
  {
    Quot(memorySize, BytesPerMegabyte) - Quot(consumedKb, KilobytesPerMegabyte)
  }

  /** What the API answers while requests are processed: the host list (asked once per
      request) and, per host, the consumed-memory counter. */
  datatype ApiView = ApiView(hosts: Result<seq<HostSystem>>, memConsumed: HostSystem -> Result<Int64>)

  /** Whether collecting the request from the host reads its hardware information:
      memAvailable always does, memFree only once the host's query has succeeded. */
  predicate NeedsHardware(view: ApiView, mt: Request, h: HostSystem) {
    || Leaf(mt.namespace) == MemAvailable
    || (Leaf(mt.namespace) == MemFree && view.memConsumed(h).Ok?)
  }

  /** Every host of the list whose hardware the request reads carries it. */
  predicate HasHardware(view: ApiView, mt: Request, hosts: seq<HostSystem>) {
    forall h :: h in hosts && NeedsHardware(view, mt, h) ==> h.hardware.Some?
  }

  /** The hosts a well-formed request selects from the list carry hardware information
      wherever it is read: every host for `*`, the first host of the name for a literal.
      A malformed request reads no host. */
  predicate HardwareFor(view: ApiView, hosts: seq<HostSystem>, mt: Request) {
    (WellFormed(mt.namespace) && (Leaf(mt.namespace) == MemFree || Leaf(mt.namespace) == MemAvailable)) ==>
      if Selector(mt.namespace) == Wildcard then HasHardware(view, mt, hosts)
      else FirstHasHardware(view, mt, hosts, Selector(mt.namespace))
  }

  /** The first host of the name, if there is one, carries hardware information wherever
      the request reads it. */
  predicate FirstHasHardware(view: ApiView, mt: Request, hosts: seq<HostSystem>, name: string)
    decreases |hosts|
  {
    |hosts| > 0 ==>
      if hosts[0].name == name then NeedsHardware(view, mt, hosts[0]) ==> hosts[0].hardware.Some?
      else FirstHasHardware(view, mt, hosts[1..], name)
  }

  lemma {:induction false} FirstNamedHasHardware(view: ApiView, mt: Request, hosts: seq<HostSystem>, name: string)
    requires FirstHasHardware(view, mt, hosts, name) && FirstNamed(hosts, name).Some?
    ensures HasHardware(view, mt, [hosts[FirstNamed(hosts, name).value]])
    decreases |hosts|
  {
    if hosts[0].name != name {
      FirstNamedHasHardware(view, mt, hosts[1..], name);
    }
  }

  predicate HardwareReady(view: ApiView, mts: seq<Request>) {
    view.hosts.Ok? ==>
      forall i {:trigger HardwareFor(view, view.hosts.value, mts[i])} :: 0 <= i < |mts| ==> HardwareFor(view, view.hosts.value, mts[i])
  }

  /** Index of the first host with the given name. */
  function FirstNamed(hosts: seq<HostSystem>, name: string): (r: Option<nat>)
    ensures r.Some? ==> r.value < |hosts| && hosts[r.value].name == name
                        && forall j :: 0 <= j < r.value ==> hosts[j].name != name
    ensures r.None? ==> forall j :: 0 <= j < |hosts| ==> hosts[j].name != name
  {
    if |hosts| == 0 then None
    else if hosts[0].name == name then Some(0)
    else match FirstNamed(hosts[1..], name)
      case None => None
      case Some(i) => Some(i + 1)
  }

  /** The host selector: `*` keeps every host in order; a literal keeps the first host of
      that exact name, and no such host is an error. */
  function HostSelection(hosts: seq<HostSystem>, requested: string): (r: Result<seq<HostSystem>>)
    ensures requested == Wildcard ==> r == Ok(hosts)
    ensures requested != Wildcard ==> (r.Ok? <==> exists i :: 0 <= i < |hosts| && hosts[i].name == requested)
    ensures requested != Wildcard && r.Ok? ==>
      exists i :: 0 <= i < |hosts| && r.value == [hosts[i]] && hosts[i].name == requested
                  && forall j :: 0 <= j < i ==> hosts[j].name != requested
    ensures r.Err? ==> r.msg == "Unable to find host " + requested
  {
    if requested == Wildcard then Ok(hosts)
    else match FirstNamed(hosts, requested)
      case None => Err("Unable to find host " + requested)
      case Some(i) => Ok([hosts[i]])
  }

  /** Every host a request selects carries hardware information when the request needs it. */
  lemma SelectedHaveHardware(view: ApiView, hosts: seq<HostSystem>, mt: Request, selected: seq<HostSystem>)
    requires WellFormed(mt.namespace) && HardwareFor(view, hosts, mt)
    requires HostSelection(hosts, mt.namespace[HostPosition].value) == Ok(selected)
    ensures HasHardware(view, mt, selected)
  {
    var requested := mt.namespace[HostPosition].value;
    if requested != Wildcard && (Leaf(mt.namespace) == MemFree || Leaf(mt.namespace) == MemAvailable) {
      FirstNamedHasHardware(view, mt, hosts, requested);
    }
  }

  /** The namespace with only the host element's value replaced. */
  function RewriteHost(ns: Namespace, hostName: string): (r: Namespace)
    requires HostPosition < |ns|
    ensures |r| == |ns| && r[HostPosition] == ns[HostPosition].(value := hostName)
    ensures forall i :: 0 <= i < |ns| && i != HostPosition ==> r[i] == ns[i]
  {
    ns[HostPosition := ns[HostPosition].(value := hostName)]
  }

  /** The figure a request's leaf asks of one host; an unknown leaf gives 0. */
  function HostData(view: ApiView, mt: Request, host: HostSystem): (r: Result<Int64>)
    requires NeedsHardware(view, mt, host) ==> host.hardware.Some?
    ensures Leaf(mt.namespace) == MemUsage || Leaf(mt.namespace) == MemFree ==>
      && (r.Ok? <==> view.memConsumed(host).Ok?)
      && (r.Err? ==> r.msg == "unable retrieve memUsage: " + view.memConsumed(host).msg)
    ensures Leaf(mt.namespace) == MemAvailable ==> r == Ok(MemAvailableMb(host.hardware.value.memorySize))
    ensures Leaf(mt.namespace) != MemUsage && Leaf(mt.namespace) != MemFree && Leaf(mt.namespace) != MemAvailable ==>
      r == Ok(0)
  {
    var leaf := Leaf(mt.namespace);
    if leaf == MemUsage then
      match view.memConsumed(host)
      case Err(e) => Err("unable retrieve memUsage: " + e)
      case Ok(memUsage) => Ok(MemUsageMb(memUsage))
    else if leaf == MemFree then
      match view.memConsumed(host)
      case Err(e) => Err("unable retrieve memUsage: " + e)
      case Ok(memUsage) => Ok(MemFreeMb(host.hardware.value.memorySize, memUsage))
    else if leaf == MemAvailable then
      Ok(MemAvailableMb(host.hardware.value.memorySize))
    else
      Ok(0)
  }

  function HostMetric(view: ApiView, mt: Request, host: HostSystem): Result<Metric>
    requires WellFormed(mt.namespace)
    requires NeedsHardware(view, mt, host) ==> host.hardware.Some?
  {
    var data :- HostData(view, mt, host);
    Ok(Metric(RewriteHost(mt.namespace, host.name), data, mt.unit, mt.version))
  }

  /** One metric per selected host, in order; the first failing host fails them all. */
  function HostsMetrics(view: ApiView, mt: Request, hosts: seq<HostSystem>): Result<seq<Metric>>
    requires WellFormed(mt.namespace) && HasHardware(view, mt, hosts)
  {
    if |hosts| == 0 then Ok([])
    else
      var done :- HostsMetrics(view, mt, hosts[..|hosts| - 1]);
      var m :- HostMetric(view, mt, hosts[|hosts| - 1]);
      Ok(done + [m])
  }

  /** One request: shape check, host list, host selection, one metric per selected host. */
  function RequestMetrics(view: ApiView, mt: Request): Result<seq<Metric>>
    requires view.hosts.Ok? ==> HardwareFor(view, view.hosts.value, mt)
  {
    if !WellFormed(mt.namespace) then Err("incorrect metric")
    else
      match view.hosts
      case Err(e) => Err("Unable to get hosts: " + e)
      case Ok(hosts) =>
        var selected :- HostSelection(hosts, mt.namespace[HostPosition].value);
        SelectedHaveHardware(view, hosts, mt, selected);
        HostsMetrics(view, mt, selected)
  }

  /** All requests in order; the first failing request fails the whole collection. */
  function CollectEach(view: ApiView, mts: seq<Request>): Result<seq<Metric>>
    requires HardwareReady(view, mts)
  {
    if |mts| == 0 then Ok([])
    else
      var done :- CollectEach(view, mts[..|mts| - 1]);
      var more :- RequestMetrics(view, mts[|mts| - 1]);
      Ok(done + more)
  }

  /** Requests that are ready stay ready when later ones are dropped. */
  lemma ReadyPrefix(view: ApiView, mts: seq<Request>, k: nat)
    requires HardwareReady(view, mts) && k <= |mts|
    ensures HardwareReady(view, mts[..k])
  {
    if view.hosts.Ok? {
      forall i | 0 <= i < k
        ensures HardwareFor(view, view.hosts.value, mts[..k][i])
      {
        assert mts[..k][i] == mts[i];
      }
    }
  }

  /** The view a client gives once it is initialised and holds a catalog. */
  function ViewOf(remote: Remote, h: Handles, counters: seq<PerfCounterInfo>): ApiView
    requires h.Complete()
  {
    ApiView(HostsOf(remote, h.pc.value, h.cluster.value),
            host => CallQueryPerfSpec(remote, h.client, counters, host, MemConsumedKb))
  }

  /** What a collection from handles `h` needs of the server: the cluster query Init may
      send is answered by an error or a non-empty list, and the host list the collection
      then obtains carries hardware information wherever a request reads it. */
  predicate Collectable(remote: Remote, h: Handles, mts: seq<Request>) {
    0 < |mts| ==>
      && ClusterListedFor(remote, h, mts[0].config)
      && var (h1, initErr) := InitSpec(remote, h, mts[0].config);
         initErr.Pass? ==>
           match remote.perfCounters(h1.client.value)
           case Err(_) => true
           case Ok(counters) => HardwareReady(ViewOf(remote, h1, counters.Items()), mts)
  }

  /** CollectMetrics as a whole: no requests, a failed Init or a failed catalog fetch fail
      before any request is looked at; otherwise every request is collected. */
  function CollectSpec(remote: Remote, h: Handles, mts: seq<Request>): Result<seq<Metric>>
    requires Collectable(remote, h, mts)
  {
    if |mts| < 1 then Err("No metrics specified")
    else
      var (h1, initErr) := InitSpec(remote, h, mts[0].config);
      if initErr.Fail? then Err("Unable to initialize: " + initErr.msg)
      else
        match remote.perfCounters(h1.client.value)
        case Err(e) => Err("unable to retrieve vSphere perf counters: " + e)
        case Ok(counters) => CollectEach(ViewOf(remote, h1, counters.Items()), mts)
  }

  lemma ReadyAfterInit(remote: Remote, h: Handles, mts: seq<Request>)
    requires Collectable(remote, h, mts) && 0 < |mts| && InitSpec(remote, h, mts[0].config).1.Pass?
    requires remote.perfCounters(InitSpec(remote, h, mts[0].config).0.client.value).Ok?
    ensures
      var h1 := InitSpec(remote, h, mts[0].config).0;
      HardwareReady(ViewOf(remote, h1, remote.perfCounters(h1.client.value).value.Items()), mts)
  {
  }

  /** The client's catalog after a collection: the fetched one once Init and the fetch have
      succeeded, otherwise the one it had before. */
  function CatalogAfter(remote: Remote, h: Handles, catalog: Slice<PerfCounterInfo>, mts: seq<Request>): Slice<PerfCounterInfo>
    requires Collectable(remote, h, mts)
  {
    if |mts| < 1 then catalog
    else
      var (h1, initErr) := InitSpec(remote, h, mts[0].config);
      if initErr.Fail? then catalog
      else
        match remote.perfCounters(h1.client.value)
        case Err(_) => catalog
        case Ok(counters) => counters
  }

  /** Once a prefix of the requests has failed, the whole collection fails the same way. */
  lemma {:induction false} CollectEachErrPersists(view: ApiView, mts: seq<Request>, k: nat)
    requires HardwareReady(view, mts) && k <= |mts|
    requires CollectEach(view, mts[..k]).Err?
    ensures CollectEach(view, mts) == CollectEach(view, mts[..k])
    decreases |mts|
  {
    if k < |mts| {
      var init := mts[..|mts| - 1];
      assert init[..k] == mts[..k];
      CollectEachErrPersists(view, init, k);
    } else {
      assert mts[..k] == mts;
    }
  }

  lemma {:induction false} HostsMetricsErrPersists(view: ApiView, mt: Request, hosts: seq<HostSystem>, k: nat)
    requires WellFormed(mt.namespace) && HasHardware(view, mt, hosts)
    requires k <= |hosts| && HostsMetrics(view, mt, hosts[..k]).Err?
    ensures HostsMetrics(view, mt, hosts) == HostsMetrics(view, mt, hosts[..k])
    decreases |hosts|
  {
    if k < |hosts| {
      var init := hosts[..|hosts| - 1];
      assert init[..k] == hosts[..k];
      HostsMetricsErrPersists(view, mt, init, k);
    } else {
      assert hosts[..k] == hosts;
    }
  }

  /** The host-selection loop of CollectMetrics. */
  method SelectHosts(hosts: seq<HostSystem>, requestedHost: string) returns (r: Result<seq<HostSystem>>)
    ensures r == HostSelection(hosts, requestedHost)
  {
    r := Ok(hosts);
    if requestedHost != Wildcard {
      var found := false;
      var i := 0;
      while i < |hosts|
        invariant 0 <= i <= |hosts|
        invariant forall j :: 0 <= j < i ==> hosts[j].name != requestedHost
      {
        if hosts[i].name == requestedHost {
          found := true;
          r := Ok([hosts[i]]);
          break;
        }
        i := i + 1;
      }
      if !found {
        return Err("Unable to find host " + requestedHost);
      }
    }
  }

  /** The plugin object, holding the vSphere client it collects through. */
  class VsphereCollector {
    var resources: GovmomiClient

    constructor ()
      ensures fresh(resources) && resources.HandleState() == NoHandles && resources.metrics == Nil
    {
      resources := new GovmomiClient();
    }

    /** What the client answers, once initialised. */
    function View(remote: Remote): ApiView
      requires resources.HandleState().Complete()
      reads this, resources
    {
      ViewOf(remote, resources.HandleState(), resources.metrics.Items())
    }

    method CollectMetrics(remote: Remote, mts: seq<Request>) returns (r: Result<seq<Metric>>)
      requires Collectable(remote, resources.HandleState(), mts)
      modifies resources
      ensures r == CollectSpec(remote, old(resources.HandleState()), mts)
      ensures resources.HandleState() ==
        if 0 < |mts| then InitSpec(remote, old(resources.HandleState()), mts[0].config).0
        else old(resources.HandleState())
      ensures resources.metrics == CatalogAfter(remote, old(resources.HandleState()), old(resources.metrics), mts)
    {
      if |mts| < 1 {
        return Err("No metrics specified");
      }
      ghost var h0, m0 := resources.HandleState(), resources.metrics;

      var initErr := resources.Init(remote, mts[0].config);
      if initErr.Fail? {
        assert CatalogAfter(remote, h0, m0, mts) == m0;
        return Err("Unable to initialize: " + initErr.msg);
      }
      assert resources.HandleState().Complete();

      // The catalog is fetched on every call: available counters can change at run time.
      var retrieveErr := resources.RetrieveMetrics(remote);
      if retrieveErr.Fail? {
        assert CatalogAfter(remote, h0, m0, mts) == m0;
        return Err("unable to retrieve vSphere perf counters: " + retrieveErr.msg);
      }
      ReadyAfterInit(remote, h0, mts);
      assert CatalogAfter(remote, h0, m0, mts) == resources.metrics;
      r := CollectAll(remote, mts);
    }

    /** The request loop: every request in order, stopping at the first failure. */
    method CollectAll(remote: Remote, mts: seq<Request>) returns (r: Result<seq<Metric>>)
      requires resources.HandleState().Complete() && HardwareReady(View(remote), mts)
      ensures r == CollectEach(View(remote), mts)
    {
      var metrics: seq<Metric> := [];
      for i := 0 to |mts|
        invariant CollectEach(View(remote), mts[..i]) == Ok(metrics)
      {
        var mt := mts[i];
        assert mts[..i + 1][..i] == mts[..i] && mts[..i + 1][i] == mt;
        var requested := CollectRequest(remote, mt);
        if requested.Err? {
          CollectEachErrPersists(View(remote), mts, i + 1);
          return Err(requested.msg);
        }
        metrics := metrics + requested.value;
      }
      assert mts[..|mts|] == mts;
      return Ok(metrics);
    }

    /** One pass of the request loop. */
    method CollectRequest(remote: Remote, mt: Request) returns (r: Result<seq<Metric>>)
      requires resources.HandleState().Complete()
      requires View(remote).hosts.Ok? ==> HardwareFor(View(remote), View(remote).hosts.value, mt)
      ensures r == RequestMetrics(View(remote), mt)
    {
      var (isDynamic, dynInd) := IsDynamic(mt.namespace);
      if isDynamic {
        if |dynInd| != 1 || dynInd[0] != HostPosition {
          return Err("incorrect metric");
        }
      } else {
        // Not a dynamic metric.
        return Err("incorrect metric");
      }

      var hosts := resources.GetHosts(remote);
      if hosts.Err? {
        return Err("Unable to get hosts: " + hosts.msg);
      }

      var selected := SelectHosts(hosts.value, mt.namespace[HostPosition].value);
      if selected.Err? {
        return Err(selected.msg);
      }
      SelectedHaveHardware(View(remote), hosts.value, mt, selected.value);
      r := CollectHosts(remote, mt, selected.value);
    }

    /** The host loop of one request. */
    method CollectHosts(remote: Remote, mt: Request, hosts: seq<HostSystem>) returns (r: Result<seq<Metric>>)
      requires resources.HandleState().Complete() && WellFormed(mt.namespace)
      requires HasHardware(View(remote), mt, hosts)
      ensures r == HostsMetrics(View(remote), mt, hosts)
    {
      var metrics: seq<Metric> := [];
      for j := 0 to |hosts|
        invariant HostsMetrics(View(remote), mt, hosts[..j]) == Ok(metrics)
      {
        assert hosts[..j + 1][..j] == hosts[..j];
        var hostMetric := CollectHost(remote, mt, hosts[j]);
        if hostMetric.Err? {
          HostsMetricsErrPersists(View(remote), mt, hosts, j + 1);
          return Err(hostMetric.msg);
        }
        metrics := metrics + [hostMetric.value];
      }
      assert hosts[..|hosts|] == hosts;
      return Ok(metrics);
    }

    /** The metric of one host: the figure the leaf names, in a namespace naming the host. */
    method CollectHost(remote: Remote, mt: Request, host: HostSystem) returns (r: Result<Metric>)
      requires resources.HandleState().Complete() && WellFormed(mt.namespace)
      requires NeedsHardware(View(remote), mt, host) ==> host.hardware.Some?
      ensures r == HostMetric(View(remote), mt, host)
    {
      var data: Int64 := 0;

      var leaf := mt.namespace[|mt.namespace| - 1].value;
      if leaf == MemUsage {
        var memUsage := resources.CallQueryPerf(remote, host, MemConsumedKb);  // in kilobytes
        if memUsage.Err? {
          return Err("unable retrieve memUsage: " + memUsage.msg);
        }
        data := MemUsageMb(memUsage.value);
      } else if leaf == MemFree {
        var memUsage := resources.CallQueryPerf(remote, host, MemConsumedKb);  // in kilobytes
        if memUsage.Err? {
          return Err("unable retrieve memUsage: " + memUsage.msg);
        }
        var memAvailable := host.hardware.value.memorySize;  // in bytes
        data := MemFreeMb(memAvailable, memUsage.value);
      } else if leaf == MemAvailable {
        var memAvailable := host.hardware.value.memorySize;  // in bytes
        data := MemAvailableMb(memAvailable);
      }

      // A copy of the request's namespace with the host element set to this host.
      var ns := mt.namespace;
      ns := ns[HostPosition := ns[HostPosition].(value := host.name)];
      return Ok(Metric(ns, data, mt.unit, mt.version));
    }
  }
}
