# vSphere host-memory collector, modelled in Dafny

This project models the collection path of a Snap collector plugin for VMware vSphere.
A collection gets a list of requested metrics. Each request has a namespace of the form
`intel/vmware/vsphere/host/<host>/<leaf>`: the element at position 4 is the dynamic host
element, and the leaf is one of `memUsage`, `memFree` or `memAvailable`. The collector:

- initialises its vSphere client lazily from the first request's configuration;
- fetches the performance-counter catalog;
- for each request, lists the cluster's hosts and selects either all of them (`*`) or the
  first host with that exact name;
- emits one metric per selected host, with the host name written into a copy of the
  request's namespace.

Memory figures use Go's truncating int64 division. Any failure aborts the whole
collection with no metrics.

The model also covers the vSphere client around that path:

- the counter lookup by full name (`group.name.rollup`, the last match wins);
- the fixed-shape performance query and its one-entity/one-series/one-value check;
- the lazy handle chain of `Init`;
- the per-cycle fetch cache of the API object (`ClearCache`, `Retrieve*`), including the
  one quirk it has: a failed VM fetch is cached.

Modules:

- `Wrappers`: `Option`, `Result`, `Outcome` (Go's `error`), and `Slice` (a Go slice that
  can be nil).
- `Vim`: the vSphere objects, plus `Remote`. `Remote` is a value of total functions that
  stands for every network call: client creation, the default datacenter, the cluster
  list, property retrieval and `QueryPerf`.
- `Connection`: the handle chain shared by both `Init` methods. `findCluster` and
  `initializeFinder` exist in two copies, and `Helpers` selects which copy runs.
- `Govmomi`: the client used for collection (class `GovmomiClient`) and its
  specification functions.
- `Api`: the cache object (class `GovmomiApi`). Each operation is specified by a pure
  step function on a `Cache` value that also reports the fetches made.
- `Vsphere`: `CollectMetrics` (class `VsphereCollector`), proved against the
  specification function `CollectSpec`.
- `CollectProperties`: lemmas about the specification functions.

## Model

| member | source | states |
|---|---|---|
| Connection.Capital | vsphere/govmomi_client.go:236-262 | the client's copy of a helper message differs from the API's only in its first letter, which is `U`; the API's copy is the message itself |
| Connection.InitializeFinder | vsphere/api.go:183-192 | Ok exactly when the default datacenter is found, and then that finder; otherwise the datacenter error under "unable to find default datacenter: ", capitalised in the client's copy (vsphere/govmomi_client.go:236-245) |
| Connection.FindCluster | vsphere/api.go:196-217 | Ok exactly when the listing is non-empty and element 0 loads, and then the cluster loaded for element 0; a failed listing gives "unable to find cluster compute resource list: " and a failed load "unable to retrieve cluster from reference: " with the server's error (capitalised in the client's copy, vsphere/govmomi_client.go:249-267); an empty list gives "cluster compute resource list is empty" |
| Connection.FindClusterUsesFirst | vsphere/api.go:206-210 | two cluster lists with the same first element give the same cluster |
| Connection.Connect | vsphere/api.go:51-79 | fills only unset handles, keeps every handle already set, succeeds exactly when all four handles are set, and leaves a complete set untouched; what each step stores and reports is stated by the three step lemmas below |
| Connection.ConnectClientStep | vsphere/api.go:53-58 | the client in hand (the one set, or the new one) is stored; a client error stops the chain with no handle changed and "unable to initialize vSphere client: " plus the error |
| Connection.ConnectFinderStep | vsphere/api.go:60-65 | with a client, the finder in hand (the one set, or the default datacenter's) is stored; a finder error stops the chain with only the client stored and "unable to initialize vSphere finder: " plus the error |
| Connection.ConnectClusterStep | vsphere/api.go:67-76 | with a client and a finder, the collector is the one set or the client's default one; an unset cluster becomes the one findCluster returns with that collector and the chain passes, or stays unset with "unable to find cluster: " plus the lookup's error |
| Connection.ConnectFromScratch | vsphere/govmomi_client.go:85-110 | from no handles, when every server call succeeds, the chain stores the new client, the default datacenter's finder, the client's default collector and the first listed cluster, and passes |
| Connection.ConnectTwice | vsphere/govmomi_client.go:85-110 | after one success, running the chain again changes nothing, whatever the server answers |
| Govmomi.ReadConfig | vsphere/govmomi_client.go:60-83 | the settings are read exactly when all five are present with the right types; a missing url gives the not-found error |
| Govmomi.InitSpec | vsphere/govmomi_client.go:59-111 | unreadable settings touch no handle; success exactly when the settings are readable and all handles are set; handles already set are kept |
| Govmomi.LookupCounter | vsphere/govmomi_client.go:141-153 | none exactly when no counter has the full name; otherwise a counter with that name with no later one of that name (the last match) |
| Govmomi.QueryFor | vsphere/govmomi_client.go:160-176 | the query goes to the client's performance manager with one spec: the host's reference, interval 20, one sample, format "normal", and one metric id of the counter's key with instance `*` |
| Govmomi.SingleValue | vsphere/govmomi_client.go:198-213 | Ok exactly when the response has one entity with one series with one value, and then that value |
| Govmomi.UnknownCounterSendsNoQuery | vsphere/govmomi_client.go:155-157 | an unknown name gives "metric … not found in vSphere" whatever the server and the client |
| Govmomi.QueryTargetsLastCounter | vsphere/govmomi_client.go:159-176 | the query names the host's reference, interval 20, one sample, format "normal", and one metric id holding the last matching counter's key and instance `*` |
| Govmomi.GovmomiClient.constructor | vsphere/vsphere.go:52-54 | a new client has no handles and a nil catalog |
| Govmomi.GovmomiClient.Init | vsphere/govmomi_client.go:59-111 | the new handles and the error are those `InitSpec` gives for the old handles |
| Govmomi.GovmomiClient.Connect | vsphere/govmomi_client.go:85-110 | filling the unset handles in turn gives the handles and the error `Connect` gives with the client's copy of the helpers |
| Govmomi.GovmomiClient.RetrieveMetrics | vsphere/govmomi_client.go:114-124 | on success the catalog is replaced by the fetched one; on error it is left as it was and the error is returned |
| Govmomi.GovmomiClient.GetHosts | vsphere/govmomi_client.go:127-135 | the cluster's hosts as the collector loads them, or the prefixed error |
| Govmomi.GovmomiClient.CallQueryPerf | vsphere/govmomi_client.go:138-214 | the lookup loop and the query give what `CallQueryPerfSpec` gives: last-match lookup, one query, single-value extraction |
| Api.CountersStep | vsphere/api.go:90-102 | a filled slot is answered with no fetch and no change; a nil slot makes one fetch, whose catalog is the answer and the new slot, or whose error is returned unchanged with the cache as it was; the other slots never change |
| Api.DatastoresStep | vsphere/api.go:106-117 | a set slot, or a cluster with no datastores, is answered from the slot with no fetch and no change; otherwise one fetch, whose datastores are the answer and the new slot, or whose error is returned under "unable to retrieve datastores: " with the cache as it was; the other slots never change |
| Api.HostsStep | vsphere/api.go:120-131 | a set slot, or a cluster with no hosts, is answered from the slot with no fetch and no change; otherwise one fetch, whose hosts are the answer and the new slot, or whose error is returned under "unable to retrieve hosts: " with the cache as it was; the other slots never change |
| Api.VmsStep | vsphere/api.go:134-150 | a set slot is answered with no fetch and no change; a fetch happens exactly when the slot is nil and the host has VM references; without a fetch only a missing map is created and the answer is the host's slot, nil included; a successful fetch answers the fetched list, a failed one the prefixed error with an empty non-nil slot stored; the map exists afterwards and only the host's own key can change; a successful answer is the host's slot |
| Api.FetchedVmsAreCached | vsphere/api.go:138-149 | after a successful VM fetch, the answer is the fetched list and the next call for that host answers it again with no fetch |
| Api.DatastoresWithoutFetch | vsphere/api.go:107-116 | no fetch when the slot is set or the cluster lists no datastores; in the latter case the answer is nil with no error |
| Api.CountersFetchedOnce | vsphere/api.go:91-101 | after a fetch fills the counter slot, the next call answers the same with no fetch |
| Api.ClearedCacheFetchesCounters | vsphere/api.go:82-102 | on a cleared cache, the counter request fetches |
| Api.FailedCounterFetchRetries | vsphere/api.go:94-97 | a failed counter fetch leaves the slot nil, so the next call fetches again |
| Api.HostsWithoutFetch | vsphere/api.go:121-130 | no fetch when the slot is set or the cluster lists no hosts; in the latter case the answer is nil with no error |
| Api.NoVmRefsNoFetch | vsphere/api.go:138-149 | a host without VM references causes no fetch and, when its slot is nil or there is no map yet, answers nil with no error |
| Api.FailedVmFetchIsCached | vsphere/api.go:140-145 | after a failed VM fetch, the next call for that host answers the stored empty slice, with no error and no fetch |
| Api.GovmomiApi.constructor | vsphere/api.go:35-47 | a new API object has no handles, a cleared cache and no fetches |
| Api.GovmomiApi.Init | vsphere/api.go:51-79 | the new handles and the error are what `Connect` gives with the API's copy of the helpers |
| Api.GovmomiApi.ClearCache | vsphere/api.go:82-87 | the four cache slots are nil and the handles are unchanged |
| Api.GovmomiApi.RetrieveCounters | vsphere/api.go:90-102 | new cache, answer and fetches are those of `CountersStep` |
| Api.GovmomiApi.RetrieveDatastores | vsphere/api.go:106-117 | new cache, answer and fetches are those of `DatastoresStep` |
| Api.GovmomiApi.RetrieveHosts | vsphere/api.go:120-131 | new cache, answer and fetches are those of `HostsStep` |
| Api.GovmomiApi.RetrieveVMs | vsphere/api.go:134-150 | new cache, answer and fetches are those of `VmsStep` |
| Vsphere.DynamicIndices | vsphere/vsphere.go:81 | exactly the positions of named elements, in strictly increasing order |
| Vsphere.Quot | vsphere/vsphere.go:122 | Go's division: truncates toward zero for both signs |
| Vsphere.MemUsageMb | vsphere/vsphere.go:122 | consumed kilobytes truncated to whole megabytes |
| Vsphere.MemAvailableMb | vsphere/vsphere.go:137 | memory size in bytes truncated to whole megabytes |
| Vsphere.MemFreeMb | vsphere/vsphere.go:132 | available megabytes minus used megabytes, each truncated on its own |
| Vsphere.HostSelection | vsphere/vsphere.go:97-109 | `*` keeps every host in order; a literal is Ok exactly when some host has that name, and then keeps only the first such host; otherwise "Unable to find host …" |
| Vsphere.HostData | vsphere/vsphere.go:113-140 | memUsage and memFree succeed exactly when the host's consumed-memory query does, and otherwise fail with "unable retrieve memUsage: …"; memAvailable is the installed memory in megabytes; any other leaf gives 0 |
| Vsphere.SelectedHaveHardware | vsphere/vsphere.go:125-138 | every host the request selects carries hardware information wherever its figure reads it: memAvailable always, memFree after a successful query |
| Vsphere.RewriteHost | vsphere/vsphere.go:142-146 | the copy differs from the request namespace only at position 4, which holds the host name |
| Vsphere.CollectEachErrPersists | vsphere/vsphere.go:79-88 | once a prefix of the requests fails, the whole list fails with the same error |
| Vsphere.HostsMetricsErrPersists | vsphere/vsphere.go:112-120 | once a prefix of the hosts fails, the whole host list fails with the same error |
| Vsphere.SelectHosts | vsphere/vsphere.go:97-109 | the search loop, which stops at the first match, gives `HostSelection` |
| Vsphere.VsphereCollector.constructor | vsphere/vsphere.go:46-56 | a new collector holds a fresh client with no handles |
| Vsphere.VsphereCollector.CollectMetrics | vsphere/vsphere.go:59-162 | the result is `CollectSpec` of the old handles: no requests, Init failure and catalog failure first, then every request in order; the handles end as `InitSpec` leaves them (unchanged with no requests); the catalog is the fetched one after a successful Init and fetch, and otherwise the one the client had |
| Vsphere.VsphereCollector.CollectAll | vsphere/vsphere.go:79-159 | the request loop gives `CollectEach`: every request's metrics in order, or the first failure |
| Vsphere.VsphereCollector.CollectRequest | vsphere/vsphere.go:79-110 | one request: shape check, host list, selection and host loop, as `RequestMetrics` gives them |
| Vsphere.VsphereCollector.CollectHosts | vsphere/vsphere.go:112-157 | the host loop gives `HostsMetrics`: one metric per host in order, or the first error |
| Vsphere.VsphereCollector.CollectHost | vsphere/vsphere.go:113-155 | one host's metric as `HostMetric` gives it |
| CollectProperties.WellFormedIff | vsphere/vsphere.go:81-88 | the shape check passes exactly when position 4 is named and no other element is |
| CollectProperties.HostsMetricsPointwise | vsphere/vsphere.go:112-157 | one metric per host in host order, with the rewritten namespace, the request's unit and version, and that host's figure; Ok exactly when every host's figure is |
| CollectProperties.HostsMetricsFirstError | vsphere/vsphere.go:117-129 | the first failing host decides the error of the host list |
| CollectProperties.CollectEachOkIff | vsphere/vsphere.go:79-159 | the collection succeeds exactly when every request does |
| CollectProperties.CollectEachAppend | vsphere/vsphere.go:79-159 | the metrics of `a + b` are those of `a` followed by those of `b`, and fail when either part fails |
| CollectProperties.CollectEachFirstError | vsphere/vsphere.go:79-159 | the first failing request decides the error, even after earlier requests succeeded |
| CollectProperties.InvalidRequestAborts | vsphere/vsphere.go:81-88 | a request of the wrong shape fails the whole collection with "incorrect metric" |
| CollectProperties.HostsFailureAborts | vsphere/vsphere.go:91-94 | a failed host listing fails the collection with "Unable to get hosts: …" |
| CollectProperties.WildcardOnePerHost | vsphere/vsphere.go:97-157 | with `*`: one metric per listed host in listing order, each naming its host |
| CollectProperties.ZeroHostsNoMetrics | vsphere/vsphere_test.go:142-150 | no hosts and `*` requests: success with no metrics |
| CollectProperties.LiteralHostFirstMatch | vsphere/vsphere.go:97-109 | a literal selector collects only the first host of that name, under the request's own namespace |
| CollectProperties.LiteralHostAbsentAborts | vsphere/vsphere.go:106-108 | a literal naming no host fails with "Unable to find host …" |
| CollectProperties.OtherLeafZero | vsphere/vsphere.go:113-140 | any other leaf sends no query and reports 0 per host; with `*` it emits one metric per host |
| CollectProperties.QueryFailureAborts | vsphere/vsphere.go:116-120 | a failed query on the first host fails a memUsage request with "unable retrieve memUsage: …" |
| CollectProperties.MemoryFigures | vsphere/vsphere.go:115-138 | memUsage is consumed KB truncated by 1024; memFree is installed bytes truncated by 1048576 minus that; memAvailable is the former |
| CollectProperties.MemFreeNearExact | vsphere/vsphere.go:132 | for non-negative inputs, free memory is within one megabyte of the exact difference |
| CollectProperties.MemFreeExample | vsphere/vsphere.go:130-132 | 1234567890 bytes and 122880 KB give 1177 − 120 = 1057 |
| CollectProperties.InitTwice | vsphere/govmomi_client.go:59-111 | after a successful Init, another Init with readable settings changes nothing |
| CollectProperties.CollectAgain | vsphere/vsphere.go:68-77 | against an unchanged server, the handles the first call left can be collected from again, and doing so gives the same result |
| CollectProperties.ConnectRetry | vsphere/govmomi_client.go:85-108 | re-running the handle chain from where it stopped ends where it ended before, and the cluster query it would send still gets a non-empty answer or an error |

## Left out

- Network, `context.Context` and timestamps: every call into govmomi is a field of
  `Remote`. `Remote` is deterministic, so within one collection every request sees the
  same host list. Metric timestamps (`time.Now()`) are not modelled.
- Vsphere.VsphereCollector.CollectMetrics: requires `Collectable`. Its first half
  excludes an empty answer to the one cluster query the first request's Init would send.
  The client's copy of `findCluster` (vsphere/govmomi_client.go:257) indexes element 0
  without checking, which panics in Go.
- Vsphere.VsphereCollector.CollectMetrics: the second half of `Collectable` asks that the
  host list this collection obtains carry hardware information wherever a request reads
  it (vsphere/vsphere.go:130 and 136 dereference `host.Hardware` without checking, a
  panic on nil). It is asked only of well-formed memFree and memAvailable requests, and
  only of the hosts such a request selects: with a literal selector, the first host of
  that name; for memFree, only hosts whose query succeeds. It is still asked in two cases
  Go never reaches: with `*`, of memFree hosts after the first host whose figure fails;
  and of every request after the first failing request, since Go stops at that one
  (vsphere/vsphere.go:79-159).
- `GovmomiApi.PerfQuery` (vsphere/api.go:155-161) is not modelled. It wraps one query
  call and nothing in the collection path or the cache uses it.
- Response variants other than `PerfEntityMetric` and `PerfMetricIntSeries` fail Go's
  type assertions with a panic. The tagged union has no other variants.
- The property lists passed to `Retrieve` are not modelled: each retrieval is one oracle
  field. A failed retrieval is assumed to leave its destination unwritten, except for
  `RetrieveVMs`, where Go stores the slice regardless.
- The configuration getters of the plugin library are modelled as a map lookup.
  Their error texts ("config item not found", "… is not a string", "… is not a
  boolean") follow that library, which is not part of this model.
- `GetMetricTypes` and `GetConfigPolicy` (vsphere/vsphere.go:165-206) are static plugin
  declarations. Only the three leaf names are kept, as constants.
- The mock client, the mock API and the tests are not modelled. The tests are cited as
  evidence for properties.
- Integer width: inputs are `Int64`. The figures stay within 64 bits (division only
  shrinks them, and the memFree difference of two shrunk values fits), so no wrap-around
  arises.
- `url.Parse` in `initializeClient` is folded into the `newClient` oracle field.
