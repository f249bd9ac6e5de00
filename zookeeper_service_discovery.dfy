/**
 * The ZooKeeper-backed service discovery: a table from the key
 * serviceName + "-" + group to the provider that watches that service's
 * registered instances. Every table operation runs as one atomic step (the
 * source guards them with one lock on the table).
 */
module ZookeeperDiscovery {
  import opened Wrappers
  import opened ServiceKeys

  /** The attribute payload carried by a registration; opaque to this layer. */
  type Payload = map<string, string>

  /** One instance registered with the coordination service, as a provider reports it. */
  datatype ServiceInstance = ServiceInstance(
    id: string,
    name: string,               // the combined name the instance registered under
    address: string,
    port: int,
    registrationTimeUtc: int,
    payload: Payload)

  /** What a discovery snapshot hands to callers for each instance. */
  datatype ServiceDescription = ServiceDescription(
    id: string,
    name: string,
    group: string,
    host: string,
    port: int,
    registryTime: int,
    serviceAttribute: Payload)

  /** The argument errors the discovery raises. */
  datatype Failure = IllegalArgument(message: string)

  const NodeListEmpty := IllegalArgument("zookeeper.node.list is empty")
  const BasePathEmpty := IllegalArgument("basePath is empty")
  const ServiceNameEmpty := IllegalArgument("serviceName is empty")
  const GroupNull := IllegalArgument("group is null")

  /** The part of the registry configuration the discovery checks. */
  datatype DiscoveryConfig = DiscoveryConfig(zookeeperNodes: Option<string>, basePath: Option<string>)

  /** Neither null nor empty. */
  predicate Present(s: Option<string>)
  {
    s.Some? && |s.value| > 0
  }

  /** The error construction raises for a configuration, if any; the node list is checked first. */
  function ConfigError(config: DiscoveryConfig): (e: Option<Failure>)
    ensures e == None <==> Present(config.zookeeperNodes) && Present(config.basePath)
    ensures !Present(config.zookeeperNodes) ==> e == Some(NodeListEmpty)
    ensures Present(config.zookeeperNodes) && !Present(config.basePath) ==> e == Some(BasePathEmpty)
  {
    if !Present(config.zookeeperNodes) then Some(NodeListEmpty)
    else if !Present(config.basePath) then Some(BasePathEmpty)
    else None
  }

  /** The error listen raises for its arguments, if any; the service name is checked first. */
  function ListenArgumentError(serviceName: Option<string>, group: Option<string>): (e: Option<Failure>)
    ensures e == None <==> Present(serviceName) && group.Some?
    ensures !Present(serviceName) ==> e == Some(ServiceNameEmpty)
    ensures Present(serviceName) && group.None? ==> e == Some(GroupNull)
  {
    if !Present(serviceName) then Some(ServiceNameEmpty)
    else if group.None? then Some(GroupNull)
    else None
  }

  /** The description discovery builds from one instance. */
  function Describe(instance: ServiceInstance): (d: ServiceDescription)
    ensures DescribesInstances([d], [instance])
  {
    var parts := SplitNameGroup(instance.name);
    ServiceDescription(instance.id, parts.name, parts.group, instance.address, instance.port,
                       instance.registrationTimeUtc, instance.payload)
  }

  /**
   * ds describes instances one for one, in order: each description copies the
   * id, host, port, registration time and payload of its instance, and its
   * name and group are the instance's combined name split at the first '-'.
   */
  ghost predicate DescribesInstances(ds: seq<ServiceDescription>, instances: seq<ServiceInstance>)
  {
    && |ds| == |instances|
    && forall i :: 0 <= i < |ds| ==>
         && ds[i].id == instances[i].id
         && ds[i].host == instances[i].address
         && ds[i].port == instances[i].port
         && ds[i].registryTime == instances[i].registrationTimeUtc
         && ds[i].serviceAttribute == instances[i].payload
         && NameGroup(ds[i].name, ds[i].group) == SplitNameGroup(instances[i].name)
  }

  /**
   * An instance registered under the key of a pair whose name has no '-' is
   * described with exactly that name and group.
   */
  lemma {:induction false} DescribeRecoversPair(instance: ServiceInstance, name: string, group: string)
    requires instance.name == KeyOf(Some(name), Some(group))
    requires Separator !in name
    ensures Describe(instance).name == name && Describe(instance).group == group
  {
    SplitJoin(name, group);
  }

  /**
   * The watcher of one service's instances (a Curator service provider): built
   * for a service name, started, and closed; its instance list is the cache
   * the coordination service fills.
   */
  class Provider {
    const serviceName: string
    var started: bool
    var closed: bool
    var instances: seq<ServiceInstance>

    constructor (serviceName: string)
      ensures this.serviceName == serviceName
      ensures !started && !closed && instances == []
    {
      this.serviceName := serviceName;
      started, closed, instances := false, false, [];
    }

    /** Starts watching; the cache then holds what the coordination service has registered. */
    method Start(registered: seq<ServiceInstance>)
      modifies this
      ensures started && closed == old(closed) && instances == registered
    {
      started := true;
      instances := registered;
    }

    /** Stops watching; closing always succeeds. */
    method Close()
      modifies this
      ensures closed && started == old(started) && instances == old(instances)
    {
      closed := true;
    }
  }

  class ZookeeperServiceDiscovery {
    /** The provider table, keyed by serviceName + "-" + group. */
    var providers: map<string, Provider>
    /** Whether the connection to the coordination service is still open. */
    var backendOpen: bool

    /**
     * Every provider in the table is started, not closed, watches the
     * service named by its key, and belongs to exactly one key.
     */
    ghost predicate Valid()
      reads this, providers.Values
    {
      && (forall k :: k in providers ==>
            providers[k].serviceName == k && providers[k].started && !providers[k].closed)
      && (forall k, k' :: k in providers && k' in providers && k != k' ==> providers[k] != providers[k'])
    }

    /** The providers, if any, that watch key. */
    function Watching(key: string): set<Provider>
      reads this
    {
      if key in providers then {providers[key]} else {}
    }

    /** The field initialisation: an empty table over an open connection. */
    constructor ()
      ensures Valid() && providers == map[] && backendOpen
    {
      providers := map[];
      backendOpen := true;
    }

    /**
     * The current instances of the watched service, one description each;
     * empty, and no error, when the key is not watched.
     */
    method Discovery(serviceName: Option<string>, group: Option<string>)
      returns (descriptions: seq<ServiceDescription>)
      ensures KeyOf(serviceName, group) !in providers ==> descriptions == []
      ensures KeyOf(serviceName, group) in providers ==>
                DescribesInstances(descriptions, providers[KeyOf(serviceName, group)].instances)
    {
      descriptions := [];
      var key := KeyOf(serviceName, group);
      if key in providers {
        var instances := providers[key].instances;
        var i := 0;
        while i < |instances|
          invariant 0 <= i <= |instances|
          invariant DescribesInstances(descriptions, instances[..i])
        {
          descriptions := descriptions + [Describe(instances[i])];
          i := i + 1;
        }
        assert instances[..i] == instances;
      }
    }

    /**
     * Starts watching a service group: after checking the arguments, adds a
     * started provider for the key unless one is already there, in which
     * case nothing changes.
     */
    method Listen(serviceName: Option<string>, group: Option<string>, registered: seq<ServiceInstance>)
      returns (outcome: Outcome<Failure>)
      requires Valid()
      modifies this
      ensures Valid() && backendOpen == old(backendOpen)
      ensures outcome.Fail? <==> ListenArgumentError(serviceName, group).Some?
      ensures outcome.Fail? ==>
                outcome.error == ListenArgumentError(serviceName, group).value && providers == old(providers)
      ensures var key := KeyOf(serviceName, group);
              outcome.Pass? ==> key in providers && providers.Keys == old(providers.Keys) + {key}
      ensures var key := KeyOf(serviceName, group);
              outcome.Pass? && key in old(providers) ==> providers == old(providers)
      ensures var key := KeyOf(serviceName, group);
              outcome.Pass? && key !in old(providers) ==>
                && fresh(providers[key])
                && providers == old(providers)[key := providers[key]]
                && providers[key].instances == registered
    {
      var error := ListenArgumentError(serviceName, group);
      if error.Some? {
        return Fail(error.value);
      }
      var key := KeyOf(serviceName, group);
      if key !in providers {
        var provider := new Provider(key);
        provider.Start(registered);
        providers := providers[key := provider];
      }
      outcome := Pass;
    }

    /**
     * Stops watching a service group: removes and closes the key's provider,
     * leaving every other entry as it was; nothing happens for an unwatched key.
     */
    method Cancel(serviceName: Option<string>, group: Option<string>)
      requires Valid()
      modifies this, Watching(KeyOf(serviceName, group))
      ensures Valid() && backendOpen == old(backendOpen)
      ensures providers == old(providers) - {KeyOf(serviceName, group)}
      ensures var key := KeyOf(serviceName, group);
              key in old(providers) ==> old(providers)[key].closed
    {
      var key := KeyOf(serviceName, group);
      if key in providers {
        var provider := providers[key];
        providers := providers - {key};
        provider.Close();
      }
    }

    /** Closes every provider, empties the table and closes the connection. */
    method Destroy()
      requires Valid()
      modifies this, providers.Values
      ensures Valid()
      ensures providers == map[] && !backendOpen
      ensures forall p :: p in old(providers.Values) ==> p.closed
    {
      var pending := providers.Keys;
      while pending != {}
        invariant pending <= providers.Keys
        invariant providers == old(providers)
        invariant forall k :: k in providers && k !in pending ==> providers[k].closed
        decreases pending
      {
        var k :| k in pending;
        providers[k].Close();
        pending := pending - {k};
      }
      providers := map[];
      backendOpen := false;
    }
  }

  /**
   * Construction: fails with an argument error for a null or empty node list
   * or base path, and otherwise yields a discovery with an empty table.
   */
  method Open(config: DiscoveryConfig) returns (r: Result<ZookeeperServiceDiscovery, Failure>)
    ensures r.Failure? <==> ConfigError(config).Some?
    ensures r.Failure? ==> r.error == ConfigError(config).value
    ensures r.Success? ==> fresh(r.value) && r.value.Valid() && r.value.providers == map[] && r.value.backendOpen
  {
    var error := ConfigError(config);
    if error.Some? {
      return Failure(error.value);
    }
    var discovery := new ZookeeperServiceDiscovery();
    r := Success(discovery);
  }

  /**
   * Cancel undoes a successful listen of a key that was not watched: the
   * table is back to what it was, and the provider listen created is closed.
   */
  method ListenThenCancel(discovery: ZookeeperServiceDiscovery, serviceName: Option<string>,
                          group: Option<string>, registered: seq<ServiceInstance>)
    returns (created: Option<Provider>)
    requires discovery.Valid()
    requires KeyOf(serviceName, group) !in discovery.providers
    modifies discovery
    ensures discovery.Valid()
    ensures discovery.providers == old(discovery.providers)
    ensures created.Some? <==> ListenArgumentError(serviceName, group) == None
    ensures created.Some? ==> fresh(created.value) && created.value.closed
  {
    var outcome := discovery.Listen(serviceName, group, registered);
    var key := KeyOf(serviceName, group);
    created := if key in discovery.providers then Some(discovery.providers[key]) else None;
    discovery.Cancel(serviceName, group);
  }

  /**
   * Two distinct pairs with the same key share one provider: after
   * listen("a-b", "c"), listen("a", "b-c") adds nothing, discovery("a", "b-c")
   * sees the first pair's instance, and that instance's name "a-b-c" is
   * described as name "a", group "b-c", not as the pair it was listened under.
   */
  method SharedKeyScenario(instance: ServiceInstance) returns (watched: nat, seen: seq<ServiceDescription>)
    requires instance.name == "a-b-c"
    ensures watched == 1
    ensures |seen| == 1 && seen[0].id == instance.id
    ensures seen[0].name == "a" && seen[0].group == "b-c"
  {
    var created := Open(DiscoveryConfig(Some("localhost:2181"), Some("/jrpc")));
    var discovery := created.value;
    var first := discovery.Listen(Some("a-b"), Some("c"), [instance]);
    var second := discovery.Listen(Some("a"), Some("b-c"), []);
    assert KeyOf(Some("a-b"), Some("c")) == KeyOf(Some("a"), Some("b-c")) == "a-b-c";
    watched := |discovery.providers|;
    seen := discovery.Discovery(Some("a"), Some("b-c"));
    DescribeRecoversPair(instance, "a", "b-c");
  }
}
