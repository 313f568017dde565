/** What a collection promises, stated over the specification functions of `Vsphere`:
    the shape check, host selection, one metric per host, the memory arithmetic, the
    all-or-nothing error rule and the stability of a repeated Init. */
module CollectProperties {
  import opened Wrappers
  import opened Vim
  import opened Connection
  import opened Govmomi
  import opened Vsphere

  /** The shape check accepts exactly the namespaces whose only named element is the host
      element at position 4. */
  lemma WellFormedIff(ns: Namespace)
    ensures WellFormed(ns) <==>
      && HostPosition < |ns| && ns[HostPosition].name != ""
      && forall i :: 0 <= i < |ns| && i != HostPosition ==> ns[i].name == ""
  {
    var r := DynamicIndices(ns);
    if HostPosition < |ns| && ns[HostPosition].name != ""
       && forall i :: 0 <= i < |ns| && i != HostPosition ==> ns[i].name == "" {
      assert HostPosition in r;
      forall k | 0 <= k < |r|
        ensures r[k] == HostPosition && k == 0
      {
        assert ns[r[k]].name != "" && ns[r[0]].name != "";
      }
      assert |r| - 1 == 0 by {
        assert r[|r| - 1] == HostPosition;
      }
    }
  }

  /** One metric per host, in host order: each carries the request's namespace with the
      host element renamed, the request's unit and version, and the figure its leaf asks
      of that host. The list exists exactly when every host's figure does. */
  lemma {:induction false} HostsMetricsPointwise(view: ApiView, mt: Request, hosts: seq<HostSystem>)
    requires WellFormed(mt.namespace)
    requires HasHardware(view, mt, hosts)
    ensures HostsMetrics(view, mt, hosts).Ok? <==> forall i :: 0 <= i < |hosts| ==> HostData(view, mt, hosts[i]).Ok?
    ensures HostsMetrics(view, mt, hosts).Ok? ==>
      var ms := HostsMetrics(view, mt, hosts).value;
      && |ms| == |hosts|
      && forall i :: 0 <= i < |hosts| ==>
           ms[i] == Metric(RewriteHost(mt.namespace, hosts[i].name), HostData(view, mt, hosts[i]).value, mt.unit, mt.version)
    decreases |hosts|
  {
    if |hosts| > 0 {
      var n := |hosts| - 1;
      var init, last := hosts[..n], hosts[n];
      assert forall i :: 0 <= i < n ==> init[i] == hosts[i];
      HostsMetricsPointwise(view, mt, init);
      var done, m := HostsMetrics(view, mt, init), HostMetric(view, mt, last);
      assert HostsMetrics(view, mt, hosts) ==
        if done.Err? then Err(done.msg) else if m.Err? then Err(m.msg) else Ok(done.value + [m.value]);
      if done.Ok? && m.Ok? {
        var ms := done.value + [m.value];
        forall i | 0 <= i < |hosts|
          ensures ms[i] == Metric(RewriteHost(mt.namespace, hosts[i].name), HostData(view, mt, hosts[i]).value, mt.unit, mt.version)
        {
          if i < n { assert ms[i] == done.value[i]; }
        }
      }
    }
  }

  /** The first host whose figure fails decides the error of the whole host list. */
  lemma HostsMetricsFirstError(view: ApiView, mt: Request, hosts: seq<HostSystem>, k: nat)
    requires WellFormed(mt.namespace)
    requires HasHardware(view, mt, hosts)
    requires k < |hosts| && HostData(view, mt, hosts[k]).Err?
    requires forall i :: 0 <= i < k ==> HostData(view, mt, hosts[i]).Ok?
    ensures HostsMetrics(view, mt, hosts) == Err(HostData(view, mt, hosts[k]).msg)
  {
    var prefix := hosts[..k];
    assert forall i :: 0 <= i < k ==> prefix[i] == hosts[i];
    HostsMetricsPointwise(view, mt, prefix);
    assert hosts[..k + 1][..k] == prefix;
    HostsMetricsErrPersists(view, mt, hosts, k + 1);
  }

  /** The collection succeeds exactly when every request does. */
  lemma {:induction false} CollectEachOkIff(view: ApiView, mts: seq<Request>)
    requires HardwareReady(view, mts)
    ensures CollectEach(view, mts).Ok? <==> forall i :: 0 <= i < |mts| ==> RequestMetrics(view, mts[i]).Ok?
    decreases |mts|
  {
    if |mts| > 0 {
      var n := |mts| - 1;
      var init, last := mts[..n], mts[n];
      assert mts == init + [last];
      CollectEachSnoc(view, init, last);
      CollectEachOkIff(view, init);
      assert forall i :: 0 <= i < n ==> init[i] == mts[i];
    }
  }

  /** Proof step: `CollectEach` unfolded at one more request, with the readiness of the
      shorter list. */
  lemma CollectEachSnoc(view: ApiView, mts: seq<Request>, mt: Request)
    requires HardwareReady(view, mts + [mt])
    ensures HardwareReady(view, mts) && (view.hosts.Ok? ==> HardwareFor(view, view.hosts.value, mt))
    ensures CollectEach(view, mts + [mt]) ==
      match CollectEach(view, mts)
      case Err(e) => Err(e)
      case Ok(done) =>
        match RequestMetrics(view, mt)
        case Err(e) => Err(e)
        case Ok(more) => Ok(done + more)
  {
    var all := mts + [mt];
    assert all[..|all| - 1] == mts && all[|all| - 1] == mt;
    ReadyPrefix(view, all, |mts|);
  }

  /** Requests contribute their metrics in request order: collecting `a + b` gives the
      metrics of `a` followed by those of `b`, and fails when either part fails. */
  lemma {:induction false} CollectEachAppend(view: ApiView, a: seq<Request>, b: seq<Request>)
    requires HardwareReady(view, a) && HardwareReady(view, b) && HardwareReady(view, a + b)
    ensures CollectEach(view, a + b).Ok? <==> CollectEach(view, a).Ok? && CollectEach(view, b).Ok?
    ensures CollectEach(view, a + b).Ok? ==>
      CollectEach(view, a + b).value == CollectEach(view, a).value + CollectEach(view, b).value
    decreases |b|
  {
    if |b| == 0 {
      assert a + b == a;
    } else {
      var b', last := b[..|b| - 1], b[|b| - 1];
      assert b == b' + [last];
      assert a + b == (a + b') + [last];
      CollectEachSnoc(view, b', last);
      CollectEachSnoc(view, a + b', last);
      CollectEachAppend(view, a, b');
      var ca, cb', cl := CollectEach(view, a), CollectEach(view, b'), RequestMetrics(view, last);
      assert CollectEach(view, b) == if cb'.Err? then cb' else if cl.Err? then Err(cl.msg) else Ok(cb'.value + cl.value);
      if ca.Ok? && cb'.Ok? && cl.Ok? {
        var va, vb', vl := ca.value, cb'.value, cl.value;
        assert CollectEach(view, a + b) == Ok((va + vb') + vl);
        Associative(va, vb', vl);
      }
    }
  }

  lemma Associative(x: seq<Metric>, y: seq<Metric>, z: seq<Metric>)
    ensures (x + y) + z == x + (y + z)
  {
  }

  /** The first failing request decides the error of the whole collection, whatever
      follows it. */
  lemma CollectEachFirstError(view: ApiView, mts: seq<Request>, k: nat)
    requires HardwareReady(view, mts)
    requires k < |mts| && RequestMetrics(view, mts[k]).Err?
    requires forall i :: 0 <= i < k ==> RequestMetrics(view, mts[i]).Ok?
    ensures CollectEach(view, mts) == Err(RequestMetrics(view, mts[k]).msg)
  {
    var prefix, upTo := mts[..k], mts[..k + 1];
    ReadyPrefix(view, mts, k + 1);
    assert upTo == prefix + [mts[k]];
    CollectEachSnoc(view, prefix, mts[k]);
    assert CollectEach(view, prefix).Ok? by {
      assert forall i :: 0 <= i < k ==> prefix[i] == mts[i];
      CollectEachOkIff(view, prefix);
    }
    CollectEachErrPersists(view, mts, k + 1);
  }

  /** A request of the wrong shape fails the whole collection with "incorrect metric",
      even after earlier requests were collected. */
  lemma InvalidRequestAborts(view: ApiView, mts: seq<Request>, k: nat)
    requires HardwareReady(view, mts)
    requires k < |mts| && !WellFormed(mts[k].namespace)
    requires forall i :: 0 <= i < k ==> RequestMetrics(view, mts[i]).Ok?
    ensures CollectEach(view, mts) == Err("incorrect metric")
  {
    CollectEachFirstError(view, mts, k);
  }

  /** A failed host listing fails the whole collection at the first well-formed request. */
  lemma HostsFailureAborts(view: ApiView, mts: seq<Request>, k: nat)
    requires HardwareReady(view, mts) && view.hosts.Err?
    requires k < |mts| && WellFormed(mts[k].namespace)
    requires forall i :: 0 <= i < k ==> RequestMetrics(view, mts[i]).Ok?
    ensures CollectEach(view, mts) == Err("Unable to get hosts: " + view.hosts.msg)
  {
    CollectEachFirstError(view, mts, k);
  }

  /** With the selector `*`, a collected request yields one metric per listed host, in
      listing order, each naming its host. */
  lemma WildcardOnePerHost(view: ApiView, mt: Request)
    requires view.hosts.Ok? && HardwareFor(view, view.hosts.value, mt)
    requires WellFormed(mt.namespace) && mt.namespace[HostPosition].value == Wildcard
    ensures RequestMetrics(view, mt) == HostsMetrics(view, mt, view.hosts.value)
    ensures RequestMetrics(view, mt).Ok? ==>
      var (ms, hosts) := (RequestMetrics(view, mt).value, view.hosts.value);
      && |ms| == |hosts|
      && forall i :: 0 <= i < |hosts| ==>
           ms[i].namespace == RewriteHost(mt.namespace, hosts[i].name) && ms[i].namespace[HostPosition].value == hosts[i].name
  {
    SelectedHaveHardware(view, view.hosts.value, mt, view.hosts.value);
    HostsMetricsPointwise(view, mt, view.hosts.value);
  }

  /** No hosts: every well-formed `*` request yields nothing, and the collection succeeds
      with no metrics. */
  lemma {:induction false} ZeroHostsNoMetrics(view: ApiView, mts: seq<Request>)
    requires view.hosts == Ok([]) && HardwareReady(view, mts)
    requires forall i :: 0 <= i < |mts| ==> WellFormed(mts[i].namespace) && mts[i].namespace[HostPosition].value == Wildcard
    ensures CollectEach(view, mts) == Ok([])
    decreases |mts|
  {
    if |mts| > 0 {
      var init := mts[..|mts| - 1];
      assert forall i :: 0 <= i < |init| ==> init[i] == mts[i];
      ZeroHostsNoMetrics(view, init);
      var mt := mts[|mts| - 1];
      assert HostSelection([], mt.namespace[HostPosition].value) == Ok([]);
      assert RequestMetrics(view, mt) == Ok([]);
      assert CollectEach(view, init) == Ok([]);
      var none: seq<Metric> := [];
      assert none + none == none;
    }
  }

  /** A literal selector collects only the first host of exactly that name; the metric's
      namespace is then the request's own, since the host element already holds that name. */
  lemma LiteralHostFirstMatch(view: ApiView, mt: Request, i: nat)
    requires view.hosts.Ok? && HardwareFor(view, view.hosts.value, mt)
    requires WellFormed(mt.namespace) && mt.namespace[HostPosition].value != Wildcard
    requires i < |view.hosts.value| && view.hosts.value[i].name == mt.namespace[HostPosition].value
    requires forall j :: 0 <= j < i ==> view.hosts.value[j].name != mt.namespace[HostPosition].value
    ensures NeedsHardware(view, mt, view.hosts.value[i]) ==> view.hosts.value[i].hardware.Some?
    ensures RequestMetrics(view, mt) ==
      match HostData(view, mt, view.hosts.value[i])
      case Err(e) => Err(e)
      case Ok(d) => Ok([Metric(mt.namespace, d, mt.unit, mt.version)])
  {
    var hosts := view.hosts.value;
    var requested := mt.namespace[HostPosition].value;
    assert FirstNamed(hosts, requested) == Some(i);
    SelectedHaveHardware(view, hosts, mt, [hosts[i]]);
    assert hosts[i] in [hosts[i]];
    assert HostSelection(hosts, requested) == Ok([hosts[i]]);
    assert RewriteHost(mt.namespace, hosts[i].name) == mt.namespace;
    assert [hosts[i]][..0] == [];
    assert RequestMetrics(view, mt) == HostsMetrics(view, mt, [hosts[i]]);
    assert HostsMetrics(view, mt, [hosts[i]][..0]) == Ok([]);
    match HostData(view, mt, hosts[i])
    case Err(e) =>
    case Ok(d) =>
      var m := Metric(mt.namespace, d, mt.unit, mt.version);
      assert HostMetric(view, mt, hosts[i]) == Ok(m);
      assert [] + [m] == [m];
  }

  /** A literal selector that names no listed host fails the request; no host is looked at. */
  lemma LiteralHostAbsentAborts(view: ApiView, mt: Request)
    requires view.hosts.Ok? && HardwareFor(view, view.hosts.value, mt)
    requires WellFormed(mt.namespace) && mt.namespace[HostPosition].value != Wildcard
    requires forall j :: 0 <= j < |view.hosts.value| ==> view.hosts.value[j].name != mt.namespace[HostPosition].value
    ensures RequestMetrics(view, mt) == Err("Unable to find host " + mt.namespace[HostPosition].value)
  {
    var requested := mt.namespace[HostPosition].value;
    assert !exists i :: 0 <= i < |view.hosts.value| && view.hosts.value[i].name == requested;
  }

  /** A leaf other than the three memory figures sends no query and reports 0 for every
      selected host; with `*` it never fails once hosts are listed. */
  lemma OtherLeafZero(view: ApiView, view': ApiView, mt: Request)
    requires view.hosts.Ok? && view'.hosts == view.hosts && HardwareFor(view, view.hosts.value, mt)
    requires WellFormed(mt.namespace)
    requires Leaf(mt.namespace) != MemUsage && Leaf(mt.namespace) != MemFree && Leaf(mt.namespace) != MemAvailable
    ensures RequestMetrics(view, mt) == RequestMetrics(view', mt)
    ensures RequestMetrics(view, mt).Ok? ==>
      forall k :: 0 <= k < |RequestMetrics(view, mt).value| ==> RequestMetrics(view, mt).value[k].data == 0
    ensures mt.namespace[HostPosition].value == Wildcard ==>
      RequestMetrics(view, mt).Ok? && |RequestMetrics(view, mt).value| == |view.hosts.value|
  {
    var hosts := view.hosts.value;
    match HostSelection(hosts, mt.namespace[HostPosition].value)
    case Err(_) =>
    case Ok(selected) =>
      SelectedHaveHardware(view, hosts, mt, selected);
      HostsMetricsPointwise(view, mt, selected);
      HostsMetricsPointwise(view', mt, selected);
      assert forall h :: HostData(view, mt, h) == Ok(0) == HostData(view', mt, h);
      assert HostsMetrics(view, mt, selected).Ok? && HostsMetrics(view', mt, selected).Ok?;
      var ms, ms' := HostsMetrics(view, mt, selected).value, HostsMetrics(view', mt, selected).value;
      assert |ms| == |ms'| && forall k :: 0 <= k < |ms| ==> ms[k] == ms'[k];
      assert ms == ms';
      assert HostsMetrics(view, mt, selected) == HostsMetrics(view', mt, selected);
  }

  /** A memUsage request over `*` fails with the first host's query error. */
  lemma QueryFailureAborts(view: ApiView, mt: Request)
    requires view.hosts.Ok? && |view.hosts.value| > 0 && HardwareFor(view, view.hosts.value, mt)
    requires WellFormed(mt.namespace) && mt.namespace[HostPosition].value == Wildcard
    requires Leaf(mt.namespace) == MemUsage && view.memConsumed(view.hosts.value[0]).Err?
    ensures RequestMetrics(view, mt) == Err("unable retrieve memUsage: " + view.memConsumed(view.hosts.value[0]).msg)
  {
    HostsMetricsFirstError(view, mt, view.hosts.value, 0);
  }

  /** The memUsage figure of every host is the consumed counter truncated to megabytes;
      the memFree figure is installed minus used, each truncated on its own. */
  lemma MemoryFigures(view: ApiView, mt: Request, host: HostSystem)
    requires NeedsHardware(view, mt, host) ==> host.hardware.Some?
    requires HostData(view, mt, host).Ok?
    ensures Leaf(mt.namespace) == MemUsage ==>
      view.memConsumed(host).Ok? && HostData(view, mt, host).value == Quot(view.memConsumed(host).value, 1024)
    ensures Leaf(mt.namespace) == MemFree ==>
      && view.memConsumed(host).Ok?
      && HostData(view, mt, host).value
         == Quot(host.hardware.value.memorySize, 1048576) - Quot(view.memConsumed(host).value, 1024)
    ensures Leaf(mt.namespace) == MemAvailable ==>
      HostData(view, mt, host).value == Quot(host.hardware.value.memorySize, 1048576)
  {
  }

  /** Truncating each figure on its own keeps the free-memory figure within one megabyte
      of the exact difference of installed and consumed memory. */
  lemma MemFreeNearExact(memorySize: Int64, consumedKb: Int64)
    requires 0 <= memorySize && 0 <= consumedKb
    ensures var free := MemFreeMb(memorySize, consumedKb);
      free * 1048576 - 1048576 < memorySize - consumedKb * 1024 < free * 1048576 + 1048576
  {
    var a, c := MemAvailableMb(memorySize), MemUsageMb(consumedKb);
    assert c * 1024 <= consumedKb < c * 1024 + 1024;
    assert c * 1048576 <= consumedKb * 1024 < c * 1048576 + 1048576;
  }

  /** A worked figure: 1234567890 bytes installed and 122880 KB consumed give
      1177 - 120 = 1057 MB free. */
  lemma MemFreeExample()
    ensures MemAvailableMb(1234567890) == 1177 && MemUsageMb(122880) == 120
    ensures MemFreeMb(1234567890, 122880) == 1057
  {
  }

  /** Running Init again after it succeeded changes nothing, as long as the settings are
      readable, whatever the server now answers. */
  lemma InitTwice(remote: Remote, h: Handles, cfg: Config, remote': Remote, cfg': Config)
    requires ClusterListedFor(remote, h, cfg)
    requires InitSpec(remote, h, cfg).1.Pass? && HasConnArgs(cfg')
    ensures InitSpec(remote', InitSpec(remote, h, cfg).0, cfg') == (InitSpec(remote, h, cfg).0, Pass)
  {
    var args := ReadConfig(cfg).value;
    ConnectTwice(remote, h, args, remote', ReadConfig(cfg').value, ClientHelpers);
  }

  /** Against a server that answers the same, collecting again with the handles the first
      call left gives the same result. */
  lemma CollectAgain(remote: Remote, h: Handles, mts: seq<Request>)
    requires Collectable(remote, h, mts) && 0 < |mts|
    ensures Collectable(remote, InitSpec(remote, h, mts[0].config).0, mts)
    ensures CollectSpec(remote, InitSpec(remote, h, mts[0].config).0, mts) == CollectSpec(remote, h, mts)
  {
    var cfg := mts[0].config;
    var h1 := InitSpec(remote, h, cfg).0;
    if HasConnArgs(cfg) {
      ConnectRetry(remote, h, ReadConfig(cfg).value, ClientHelpers);
      assert InitSpec(remote, h1, cfg) == InitSpec(remote, h, cfg);
    }
  }

  /** Re-running the handle chain from where it stopped ends where it ended before. */
  lemma ConnectRetry(remote: Remote, h: Handles, args: ConnArgs, hp: Helpers)
    requires hp.ClientHelpers? ==> ClusterListed(remote, h, args)
    ensures hp.ClientHelpers? ==> ClusterListed(remote, Connect(remote, h, args, hp).0, args)
    ensures Connect(remote, Connect(remote, h, args, hp).0, args, hp) == Connect(remote, h, args, hp)
  {
    if hp.ClientHelpers? {
      StillListed(remote, h, args);
    }
    var h1 := Connect(remote, h, args, hp).0;
    var client := ClientFor(remote, h, args);
    if client.Ok? {
      assert ClientFor(remote, h1, args) == client;
      var finder := FinderFor(remote, h, client.value, hp);
      if finder.Ok? {
        assert FinderFor(remote, h1, client.value, hp) == finder;
      }
    }
  }

  lemma StillListed(remote: Remote, h: Handles, args: ConnArgs)
    requires ClusterListed(remote, h, args)
    ensures ClusterListed(remote, Connect(remote, h, args, ClientHelpers).0, args)
  {
  }
}
