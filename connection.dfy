/** Setting up the four API handles: a client, a finder, a property collector and the
    cluster. Both `Init` methods run the same chain, filling only the handles still unset. */
module Connection {
  import opened Wrappers
  import opened Vim

  datatype ConnArgs = ConnArgs(url: string, username: string, password: string, insecure: bool, clusterName: string)

  datatype Handles = Handles(client: Option<Session>, finder: Option<Finder>, pc: Option<Collector>, cluster: Option<ClusterComputeResource>) {
    predicate Complete() {
      client.Some? && finder.Some? && pc.Some? && cluster.Some?
    }
  }

  const NoHandles := Handles(None, None, None, None)

  /** Which copy of the connection helpers runs. The client's copy spells three messages with
      a capital letter and indexes the cluster list without checking that it is empty; the
      cache API's copy checks. */
  datatype Helpers = ClientHelpers | ApiHelpers

  /** Every handle that was set in `before` is still the same in `after`. */
  predicate Keeps(before: Handles, after: Handles) {
    && (before.client.Some? ==> after.client == before.client)
    && (before.finder.Some? ==> after.finder == before.finder)
    && (before.pc.Some? ==> after.pc == before.pc)
    && (before.cluster.Some? ==> after.cluster == before.cluster)
  }

  /** A message as the given copy spells it: the client's copy starts with a capital. */
  function Capital(hp: Helpers, msg: string): (r: string)
    ensures |r| == |msg| && (0 < |msg| ==> r[1..] == msg[1..])
    ensures hp.ApiHelpers? ==> r == msg
    ensures hp.ClientHelpers? && |msg| > 0 ==> r[0] == 'U'
  {
    if hp.ClientHelpers? && |msg| > 0 then ['U'] + msg[1..] else msg
  }

  /** initializeFinder: a finder bound to the default datacenter. */
  function InitializeFinder(remote: Remote, client: Session, hp: Helpers): (r: Result<Finder>)
    ensures r.Ok? <==> remote.defaultDatacenter(client).Ok?
    ensures r.Ok? ==> r.value == remote.defaultDatacenter(client).value
    ensures r.Err? ==> r.msg == Capital(hp, "unable to find default datacenter: ") + remote.defaultDatacenter(client).msg
  {
    match remote.defaultDatacenter(client)
    case Err(e) => Err(Capital(hp, "unable to find default datacenter: ") + e)
    case Ok(f) => Ok(f)
  }

  /** findCluster: the first cluster the finder lists under the name, loaded by the collector. */
  function FindCluster(remote: Remote, f: Finder, pc: Collector, clusterName: string, hp: Helpers): (r: Result<ClusterComputeResource>)
    requires hp.ClientHelpers? && remote.clusterList(f, clusterName).Ok? ==> |remote.clusterList(f, clusterName).value| > 0
    ensures remote.clusterList(f, clusterName) == Ok([]) ==> r == Err("cluster compute resource list is empty")
    ensures r.Ok? <==>
      && remote.clusterList(f, clusterName).Ok?
      && |remote.clusterList(f, clusterName).value| > 0
      && remote.retrieveCluster(pc, remote.clusterList(f, clusterName).value[0]).Ok?
    ensures r.Ok? ==> r.value == remote.retrieveCluster(pc, remote.clusterList(f, clusterName).value[0]).value
    ensures var list := remote.clusterList(f, clusterName);
      list.Err? ==> r == Err(Capital(hp, "unable to find cluster compute resource list: ") + list.msg)
    ensures var list := remote.clusterList(f, clusterName);
      list.Ok? && |list.value| > 0 && remote.retrieveCluster(pc, list.value[0]).Err? ==>
        r == Err(Capital(hp, "unable to retrieve cluster from reference: ") + remote.retrieveCluster(pc, list.value[0]).msg)
  {
    match remote.clusterList(f, clusterName)
    case Err(e) => Err(Capital(hp, "unable to find cluster compute resource list: ") + e)
    case Ok(clusterList) =>
      if |clusterList| == 0 then Err("cluster compute resource list is empty")
      else
        match remote.retrieveCluster(pc, clusterList[0])
        case Err(e) => Err(Capital(hp, "unable to retrieve cluster from reference: ") + e)
        case Ok(cluster) => Ok(cluster)
  }

  /** Only element 0 of the cluster list matters: two lists with the same first element
      give the same cluster. */
  lemma FindClusterUsesFirst(remote: Remote, f: Finder, pc: Collector, name: string, remote': Remote, f': Finder, name': string, hp: Helpers)
    requires remote.clusterList(f, name).Ok? && remote'.clusterList(f', name').Ok?
    requires |remote.clusterList(f, name).value| > 0 && |remote'.clusterList(f', name').value| > 0
    requires remote.clusterList(f, name).value[0] == remote'.clusterList(f', name').value[0]
    requires remote.retrieveCluster(pc, remote.clusterList(f, name).value[0]) == remote'.retrieveCluster(pc, remote'.clusterList(f', name').value[0])
    ensures FindCluster(remote, f, pc, name, hp) == FindCluster(remote', f', pc, name', hp)
  {
  }

  /** The client a run of the chain works with: the one already set, or a new one. */
  function ClientFor(remote: Remote, h: Handles, args: ConnArgs): Result<Session> {
    if h.client.Some? then Ok(h.client.value)
    else remote.newClient(args.url, args.username, args.password, args.insecure)
  }

  /** The finder a run of the chain works with: the one already set, or a new one. */
  function FinderFor(remote: Remote, h: Handles, client: Session, hp: Helpers): Result<Finder> {
    if h.finder.Some? then Ok(h.finder.value) else InitializeFinder(remote, client, hp)
  }

  /** When a run of the chain reaches the cluster step, the finder answers its one cluster
      query with an error or a non-empty list (the client's copy of findCluster indexes
      element 0 without checking). */
  predicate ClusterListed(remote: Remote, h: Handles, args: ConnArgs) {
    var client := ClientFor(remote, h, args);
    client.Ok? && h.cluster.None? && FinderFor(remote, h, client.value, ClientHelpers).Ok? ==>
      var list := remote.clusterList(FinderFor(remote, h, client.value, ClientHelpers).value, args.clusterName);
      list.Ok? ==> |list.value| > 0
  }

  /** The handle chain of Init: each step runs only when its handle is unset; a failing
      step leaves its handle unset and stops the chain, keeping the handles set before it. */
  function Connect(remote: Remote, h: Handles, args: ConnArgs, hp: Helpers): (out: (Handles, Outcome))
    requires hp.ClientHelpers? ==> ClusterListed(remote, h, args)
    ensures Keeps(h, out.0)
    ensures out.1.Pass? <==> out.0.Complete()
    ensures h.Complete() ==> out == (h, Pass)
  {
    var client := ClientFor(remote, h, args);
    if client.Err? then (h, Fail("unable to initialize vSphere client: " + client.msg))
    else
      var h1 := h.(client := Some(client.value));
      var finder := FinderFor(remote, h, client.value, hp);
      if finder.Err? then (h1, Fail("unable to initialize vSphere finder: " + finder.msg))
      else
        var h2 := h1.(finder := Some(finder.value));
        var h3 := if h2.pc.Some? then h2 else h2.(pc := Some(remote.defaultCollector(client.value)));
        var cluster := if h3.cluster.Some? then Ok(h3.cluster.value)
                       else FindCluster(remote, finder.value, h3.pc.value, args.clusterName, hp);
        if cluster.Err? then (h3, Fail("unable to find cluster: " + cluster.msg))
        else (h3.(cluster := Some(cluster.value)), Pass)
  }

  /** The client step: the client in hand is stored, or the chain stops with the handles
      unchanged and the client error. */
  lemma ConnectClientStep(remote: Remote, h: Handles, args: ConnArgs, hp: Helpers)
    requires hp.ClientHelpers? ==> ClusterListed(remote, h, args)
    ensures var client := ClientFor(remote, h, args);
      && (client.Err? ==> Connect(remote, h, args, hp) == (h, Fail("unable to initialize vSphere client: " + client.msg)))
      && (client.Ok? ==> Connect(remote, h, args, hp).0.client == Some(client.value))
  {
  }

  /** The finder step: the finder in hand is stored, or the chain stops with only the client
      stored and the finder error. */
  lemma ConnectFinderStep(remote: Remote, h: Handles, args: ConnArgs, hp: Helpers)
    requires hp.ClientHelpers? ==> ClusterListed(remote, h, args)
    requires ClientFor(remote, h, args).Ok?
    ensures var client := ClientFor(remote, h, args).value;
      var finder := FinderFor(remote, h, client, hp);
      && (finder.Err? ==> Connect(remote, h, args, hp) == (h.(client := Some(client)), Fail("unable to initialize vSphere finder: " + finder.msg)))
      && (finder.Ok? ==> Connect(remote, h, args, hp).0.finder == Some(finder.value))
  {
  }

  /** The collector and cluster steps: an unset collector becomes the client's default one;
      an unset cluster becomes the one found with that collector, or stays unset and the
      chain fails with the lookup's error. */
  lemma ConnectClusterStep(remote: Remote, h: Handles, args: ConnArgs, hp: Helpers)
    requires hp.ClientHelpers? ==> ClusterListed(remote, h, args)
    requires ClientFor(remote, h, args).Ok?
    requires FinderFor(remote, h, ClientFor(remote, h, args).value, hp).Ok?
    ensures var client := ClientFor(remote, h, args).value;
      var finder := FinderFor(remote, h, client, hp).value;
      var pc := if h.pc.Some? then h.pc.value else remote.defaultCollector(client);
      var out := Connect(remote, h, args, hp);
      && out.0.pc == Some(pc)
      && (h.cluster.None? ==>
            var found := FindCluster(remote, finder, pc, args.clusterName, hp);
            && (found.Ok? ==> out == (out.0.(cluster := Some(found.value)), Pass))
            && (found.Err? ==> out == (out.0.(cluster := None), Fail("unable to find cluster: " + found.msg))))
  {
  }

  /** From no handles, with every server call succeeding, the chain stores the new client,
      the datacenter's finder, the client's default collector and the first listed cluster. */
  lemma ConnectFromScratch(remote: Remote, args: ConnArgs, hp: Helpers)
    requires remote.newClient(args.url, args.username, args.password, args.insecure).Ok?
    requires var client := remote.newClient(args.url, args.username, args.password, args.insecure).value;
      && remote.defaultDatacenter(client).Ok?
      && var list := remote.clusterList(remote.defaultDatacenter(client).value, args.clusterName);
      && list.Ok? && |list.value| > 0
      && remote.retrieveCluster(remote.defaultCollector(client), list.value[0]).Ok?
    ensures var client := remote.newClient(args.url, args.username, args.password, args.insecure).value;
      var finder := remote.defaultDatacenter(client).value;
      var pc := remote.defaultCollector(client);
      var cluster := remote.retrieveCluster(pc, remote.clusterList(finder, args.clusterName).value[0]).value;
      && (hp.ClientHelpers? ==> ClusterListed(remote, NoHandles, args))
      && Connect(remote, NoHandles, args, hp) == (Handles(Some(client), Some(finder), Some(pc), Some(cluster)), Pass)
  {
  }

  /** Running the chain again after it succeeded changes nothing, whatever the arguments
      and whatever the server would now answer. */
  lemma ConnectTwice(remote: Remote, h: Handles, args: ConnArgs, remote': Remote, args': ConnArgs, hp: Helpers)
    requires (hp.ClientHelpers? ==> ClusterListed(remote, h, args)) && Connect(remote, h, args, hp).1.Pass?
    ensures Connect(remote', Connect(remote, h, args, hp).0, args', hp) == (Connect(remote, h, args, hp).0, Pass)
  {
  }
}
