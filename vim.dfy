/** The vSphere (vim25) values the collector reads, and the remote side of every call it makes. */
module Vim {
  import opened Wrappers

  type Int32 = x: int | -0x8000_0000 <= x <= 0x7FFF_FFFF
  type Int64 = x: int | -0x8000_0000_0000_0000 <= x <= 0x7FFF_FFFF_FFFF_FFFF

  /** A managed object reference: its type and its server-side key (`host-12`, `vm-7`). */
  datatype Ref = Ref(kind: string, value: string)

  datatype HostHardwareInfo = HostHardwareInfo(memorySize: Int64)  // bytes

  /** A host with the properties the collector asks for. `hardware` is optional:
      Go leaves it nil when the server omits it. */
  datatype HostSystem = HostSystem(self: Ref, name: string, vm: seq<Ref>, hardware: Option<HostHardwareInfo>)

  datatype VirtualMachine = VirtualMachine(self: Ref, name: string)

  datatype Datastore = Datastore(self: Ref, name: string)

  datatype ClusterComputeResource = ClusterComputeResource(self: Ref, name: string, host: seq<Ref>, datastore: seq<Ref>)

  /** A performance counter of the catalog: its key and its (group, name, rollup) triple. */
  datatype PerfCounterInfo = PerfCounterInfo(key: Int32, groupKey: string, nameKey: string, rollupType: string)

  datatype PerfMetricId = PerfMetricId(counterId: Int32, instance: string)

  datatype PerfQuerySpec = PerfQuerySpec(entity: Ref, intervalId: Int32, maxSample: Int32, format: string, metricId: seq<PerfMetricId>)

  /** The `QueryPerf` request: the performance manager it is addressed to and its specs. */
  datatype QueryPerf = QueryPerf(perfManager: Ref, querySpec: seq<PerfQuerySpec>)

  /** The response, with each level already in its concrete shape: per entity a
      list of integer series, per series a list of samples. */
  datatype PerfMetricIntSeries = PerfMetricIntSeries(id: PerfMetricId, value: seq<Int64>)
  datatype PerfEntityMetric = PerfEntityMetric(entity: Ref, value: seq<PerfMetricIntSeries>)
  datatype QueryPerfResponse = QueryPerfResponse(returnval: seq<PerfEntityMetric>)

  /** Opaque handles: a logged-in client (with its performance manager's reference),
      a finder bound to the default datacenter, a property collector. */
  datatype Session = Session(id: nat, perfManager: Ref)
  datatype Finder = Finder(id: nat, datacenter: string)
  datatype Collector = Collector(id: nat)

  /** The server, as the answers it gives. Each field stands for one remote call
      and returns what the call returns, or the text of its error. */
  datatype Remote = Remote(
    // url.Parse followed by govmomi.NewClient
    newClient: (string, string, string, bool) -> Result<Session>,
    // find.NewFinder followed by DefaultDatacenter
    defaultDatacenter: Session -> Result<Finder>,
    // property.DefaultCollector
    defaultCollector: Session -> Collector,
    // Finder.ClusterComputeResourceList
    clusterList: (Finder, string) -> Result<seq<Ref>>,
    // Collector.Retrieve of one cluster
    retrieveCluster: (Collector, Ref) -> Result<ClusterComputeResource>,
    // RetrieveOne of the performance manager: its PerfCounter slice
    perfCounters: Session -> Result<Slice<PerfCounterInfo>>,
    // Collector.Retrieve of hosts, virtual machines, datastores
    retrieveHosts: (Collector, seq<Ref>) -> Result<Slice<HostSystem>>,
    retrieveVMs: (Collector, seq<Ref>) -> Result<seq<VirtualMachine>>,
    retrieveDatastores: (Collector, seq<Ref>) -> Result<Slice<Datastore>>,
    // methods.QueryPerf
    queryPerf: (Session, QueryPerf) -> Result<QueryPerfResponse>
  )
}
