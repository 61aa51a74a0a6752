/**
 * The network lifecycle orchestrator: the registry of network states kept
 * by the driver, and the lifecycle handlers that change it while driving
 * OVSDB, netlink and Docker.
 *
 * Each handler is specified by a pure `...Step` function of the registry
 * before the call and of the environment's answers: the result, the
 * registry afterwards and the service calls issued, in order. The methods
 * of `Driver` follow the source statement by statement and are proved to
 * produce exactly that step.
 */
module Driver {
  import opened Wrappers
  import opened Names
  import opened Services
  import opened Options

  /** One handler's effect: its result, the registry afterwards, the calls issued. */
  datatype Step<T> = Step(result: Result<T, Error>, networks: map<string, NetworkState>, calls: seq<Call>)

  /** Gateway data Docker's IPAM driver hands to CreateNetwork. */
  datatype IPAMData = IPAMData(gateway: string)

  datatype CreateNetworkRequest = CreateNetworkRequest(
    networkID: string,
    ipv4Data: seq<IPAMData>,
    options: map<string, Value>)

  /** What Join returns: the veth end to move into the container, the prefix it is renamed to, the gateway. */
  datatype JoinResponse = JoinResponse(srcName: string, dstPrefix: string, gateway: string)

  /** The registry invariant: every stored network has a valid mode and the placeholder mask. */
  predicate AllWellFormed(networks: map<string, NetworkState>) {
    forall id :: id in networks ==> WellFormed(networks[id])
  }

  // ---------------------------------------------------------------------
  // Gateway selection on a registry miss

  /** Position of the first IPAM entry whose gateway is an IPv4 address, or |configs| if none is. */
  function FirstIPv4Index(configs: seq<IPAMConfig>, isIPv4: string -> bool): (k: nat)
    ensures k <= |configs|
    ensures forall j :: 0 <= j < k ==> !isIPv4(configs[j].gateway)
    ensures k < |configs| ==> isIPv4(configs[k].gateway)
  {
    if configs == [] then 0
    else if isIPv4(configs[0].gateway) then 0
    else 1 + FirstIPv4Index(configs[1..], isIPv4)
  }

  /** The gateway passed on when a network is rebuilt: the first IPv4 one, or "". */
  function GatewayOf(configs: seq<IPAMConfig>, isIPv4: string -> bool): string {
    var k := FirstIPv4Index(configs, isIPv4);
    if k < |configs| then configs[k].gateway else ""
  }

  /** The loop of `findNetworkState` that picks the gateway, stopping at the first IPv4 entry. */
  method SelectGateway(configs: seq<IPAMConfig>, isIPv4: string -> bool) returns (gateway: string)
    ensures gateway == GatewayOf(configs, isIPv4)
  {
    gateway := "";
    for i := 0 to |configs|
      invariant forall j :: 0 <= j < i ==> !isIPv4(configs[j].gateway)
      invariant gateway == ""
    {
      if isIPv4(configs[i].gateway) {
        gateway := configs[i].gateway;
        break;
      }
    }
  }

  // ---------------------------------------------------------------------
  // The handlers as functions

  /**
   * `setupNetworkState`: resolve the configuration (failing before any call
   * when the mode is invalid), register it, then initialise the bridge; if
   * that fails, the entry for `id` is removed again and the error returned.
   */
  function SetupNetworkStep(networks: map<string, NetworkState>, id: string,
                            options: map<string, string>, gateway: string, env: Env)
    : (s: Step<NetworkState>)
    requires |id| >= TruncatedLength
    ensures ResolveNetworkState(id, options, gateway).Failure? ==>
              s == Step(Failure(InvalidMode(options[ModeOption])), networks, [])
    ensures ResolveNetworkState(id, options, gateway).Success? ==> s.calls == [InitBridge(id)]
    ensures s.result.Success? <==>
              ResolveNetworkState(id, options, gateway).Success? && env.ok(InitBridge(id))
    ensures s.result.Success? ==>
              && s.result == ResolveNetworkState(id, options, gateway)
              && s.result.value.gateway == gateway
              && s.result.value.gatewayMask == PlaceholderMask
              && s.networks == networks[id := s.result.value]
    ensures ResolveNetworkState(id, options, gateway).Success? && !env.ok(InitBridge(id)) ==>
              && s.result == Failure(CallFailed(InitBridge(id)))
              && id !in s.networks
              && s.networks == networks - {id}
    ensures AllWellFormed(networks) ==> AllWellFormed(s.networks)
  {
    match ResolveNetworkState(id, options, gateway)
    case Failure(e) => Step(Failure(e), networks, [])
    case Success(ns) =>
      if env.ok(InitBridge(id)) then Step(Success(ns), networks[id := ns], [InitBridge(id)])
      else Step(Failure(CallFailed(InitBridge(id))), networks - {id}, [InitBridge(id)])
  }

  /** True when `findNetworkState` misses and goes on to rebuild the entry for `id`. */
  predicate Rebuilds(networks: map<string, NetworkState>, driverName: string, clientEnabled: bool,
                     id: string, env: Env)
  {
    && id !in networks
    && clientEnabled
    && env.inspect(id).Some?
    && env.inspect(id).value.driver == driverName
  }

  /**
   * `findNetworkState`: a registry hit is returned as it is; on a miss the
   * entry is rebuilt from Docker's record of the network, provided there is
   * a Docker client and the network belongs to this driver.
   */
  function FindNetworkStep(networks: map<string, NetworkState>, driverName: string, clientEnabled: bool,
                           id: string, env: Env)
    : (s: Step<NetworkState>)
    requires Rebuilds(networks, driverName, clientEnabled, id, env) ==> |id| >= TruncatedLength
    ensures id in networks ==> s == Step(Success(networks[id]), networks, [])
    ensures id !in networks && !clientEnabled ==> s == Step(Failure(DockerClientDisabled), networks, [])
    ensures id !in networks && clientEnabled ==>
              s.calls == [InspectNetwork(id)] || s.calls == [InspectNetwork(id), InitBridge(id)]
    ensures id !in networks && clientEnabled && env.inspect(id).None? ==>
              s == Step(Failure(CallFailed(InspectNetwork(id))), networks, [InspectNetwork(id)])
    ensures id !in networks && clientEnabled && env.inspect(id).Some?
            && env.inspect(id).value.driver != driverName ==>
              s == Step(Failure(NotOurNetwork), networks, [InspectNetwork(id)])
    ensures id !in networks && !Rebuilds(networks, driverName, clientEnabled, id, env) ==>
              s.result.Failure? && s.networks == networks
    ensures Rebuilds(networks, driverName, clientEnabled, id, env) ==>
              var resource := env.inspect(id).value;
              var setup := SetupNetworkStep(networks, id, resource.options,
                                            GatewayOf(resource.ipamConfigs, env.isIPv4), env);
              s == Step(setup.result, setup.networks, [InspectNetwork(id)] + setup.calls)
    ensures s.result.Success? ==> id in s.networks && s.networks[id] == s.result.value
    ensures AllWellFormed(networks) && s.result.Success? ==> WellFormed(s.result.value)
    ensures s.networks - {id} == networks - {id}
    ensures AllWellFormed(networks) ==> AllWellFormed(s.networks)
  {
    if id in networks then Step(Success(networks[id]), networks, [])
    else if !clientEnabled then Step(Failure(DockerClientDisabled), networks, [])
    else match env.inspect(id)
      case None => Step(Failure(CallFailed(InspectNetwork(id))), networks, [InspectNetwork(id)])
      case Some(resource) =>
        if resource.driver != driverName then Step(Failure(NotOurNetwork), networks, [InspectNetwork(id)])
        else
          var setup := SetupNetworkStep(networks, id, resource.options,
                                        GatewayOf(resource.ipamConfigs, env.isIPv4), env);
          Step(setup.result, setup.networks, [InspectNetwork(id)] + setup.calls)
  }

  /** What CreateNetwork's callers must supply: an IPv4 gateway entry and a network id it can truncate. */
  predicate CreateNetworkReady(r: CreateNetworkRequest) {
    |r.ipv4Data| > 0 && |r.networkID| >= TruncatedLength
  }

  /** The options CreateNetwork hands on: the generic string options, nil reading as empty. */
  function CreateOptions(r: CreateNetworkRequest): map<string, string> {
    StringOptionsOf(r.options).GetOr(map[])
  }

  /** `CreateNetwork`: set up the network with the first IPv4 gateway Docker allocated. */
  function CreateNetworkStep(networks: map<string, NetworkState>, r: CreateNetworkRequest, env: Env)
    : (s: Step<()>)
    requires CreateNetworkReady(r)
    ensures var setup := SetupNetworkStep(networks, r.networkID, CreateOptions(r), r.ipv4Data[0].gateway, env);
            && s.networks == setup.networks && s.calls == setup.calls
            && (s.result.Success? <==> setup.result.Success?)
            && (s.result.Failure? ==> s.result.error == setup.result.error)
    ensures s.result.Success? ==>
              r.networkID in s.networks && s.networks[r.networkID].gateway == r.ipv4Data[0].gateway
  {
    var setup := SetupNetworkStep(networks, r.networkID, CreateOptions(r), r.ipv4Data[0].gateway, env);
    match setup.result
    case Success(_) => Step(Success(()), setup.networks, setup.calls)
    case Failure(e) => Step(Failure(e), setup.networks, setup.calls)
  }

  /**
   * `DeleteNetwork`: delete the bridge stored for `id`; only when that
   * succeeds is the entry removed. Absent ids make the source dereference nil.
   */
  function DeleteNetworkStep(networks: map<string, NetworkState>, id: string, env: Env)
    : (s: Step<()>)
    requires id in networks
    ensures s.calls == [DeleteBridge(networks[id].bridgeName)]
    ensures s.result.Success? <==> env.ok(DeleteBridge(networks[id].bridgeName))
    ensures s.result.Success? ==> s.networks == networks - {id} && id !in s.networks
    ensures s.result.Failure? ==>
              s.networks == networks && s.result.error == CallFailed(DeleteBridge(networks[id].bridgeName))
    ensures AllWellFormed(networks) ==> AllWellFormed(s.networks)
  {
    var call := DeleteBridge(networks[id].bridgeName);
    if env.ok(call) then Step(Success(()), networks - {id}, [call])
    else Step(Failure(CallFailed(call)), networks, [call])
  }

  /** True when Join gets as far as rebuilding the network's entry. */
  predicate JoinRebuilds(networks: map<string, NetworkState>, driverName: string, clientEnabled: bool,
                         networkID: string, endpointID: string, env: Env)
    requires |endpointID| >= TruncatedLength
  {
    var veth := VethPair(TruncateID(endpointID));
    env.ok(LinkAdd(veth)) && env.ok(LinkSetUp(veth))
    && Rebuilds(networks, driverName, clientEnabled, networkID, env)
  }

  /**
   * `Join`: create the endpoint's veth pair, bring its host side up, find
   * the network's state and attach the host side to its bridge. The first
   * failure ends the handler; nothing done before it is undone.
   */
  function JoinStep(networks: map<string, NetworkState>, driverName: string, clientEnabled: bool,
                    networkID: string, endpointID: string, env: Env)
    : (s: Step<JoinResponse>)
    requires |endpointID| >= TruncatedLength
    requires JoinRebuilds(networks, driverName, clientEnabled, networkID, endpointID, env) ==>
               |networkID| >= TruncatedLength
    ensures var veth := VethPair(TruncateID(endpointID));
            && |s.calls| >= 1 && s.calls[0] == LinkAdd(veth)
            && (!env.ok(LinkAdd(veth)) ==>
                  s == Step(Failure(CallFailed(LinkAdd(veth))), networks, [LinkAdd(veth)]))
            && (env.ok(LinkAdd(veth)) && !env.ok(LinkSetUp(veth)) ==>
                  s == Step(Failure(CallFailed(LinkSetUp(veth))), networks, [LinkAdd(veth), LinkSetUp(veth)]))
    ensures var veth := VethPair(TruncateID(endpointID));
            env.ok(LinkAdd(veth)) && env.ok(LinkSetUp(veth)) ==>
              var found := FindNetworkStep(networks, driverName, clientEnabled, networkID, env);
              && s.networks == found.networks
              && (found.result.Failure? ==>
                    s.result == Failure(found.result.error)
                    && s.calls == [LinkAdd(veth), LinkSetUp(veth)] + found.calls)
              && (found.result.Success? ==>
                    var add := AddPort(found.result.value.bridgeName, PortID(endpointID), 0);
                    && s.calls == [LinkAdd(veth), LinkSetUp(veth)] + found.calls + [add]
                    && (s.result.Success? <==> env.ok(add))
                    && (s.result.Failure? ==> s.result.error == CallFailed(add)))
    ensures s.result.Success? ==>
              && networkID in s.networks
              && s.result.value == JoinResponse(PeerPrefix + TruncateID(endpointID), ContainerEthName,
                                                s.networks[networkID].gateway)
              && s.calls[|s.calls| - 1] == AddPort(s.networks[networkID].bridgeName, PortID(endpointID), 0)
    ensures networkID in networks ==> s.networks == networks
    ensures s.networks - {networkID} == networks - {networkID}
    ensures AllWellFormed(networks) ==> AllWellFormed(s.networks)
  {
    var veth := VethPair(TruncateID(endpointID));
    if !env.ok(LinkAdd(veth)) then
      Step(Failure(CallFailed(LinkAdd(veth))), networks, [LinkAdd(veth)])
    else if !env.ok(LinkSetUp(veth)) then
      Step(Failure(CallFailed(LinkSetUp(veth))), networks, [LinkAdd(veth), LinkSetUp(veth)])
    else
      var found := FindNetworkStep(networks, driverName, clientEnabled, networkID, env);
      var before := [LinkAdd(veth), LinkSetUp(veth)] + found.calls;
      match found.result
      case Failure(e) => Step(Failure(e), found.networks, before)
      case Success(ns) =>
        var add := AddPort(ns.bridgeName, veth.name, 0);
        if env.ok(add) then
          Step(Success(JoinResponse(veth.peerName, ContainerEthName, ns.gateway)), found.networks, before + [add])
        else
          Step(Failure(CallFailed(add)), found.networks, before + [add])
  }

  /**
   * `Leave`: delete the veth pair, ignoring a failure, then delete the OVS
   * port from the network's bridge and return that call's error. The
   * registry is not changed.
   */
  function LeaveStep(networks: map<string, NetworkState>, networkID: string, endpointID: string, env: Env)
    : (s: Step<()>)
    requires |endpointID| >= TruncatedLength
    requires networkID in networks
    ensures s.networks == networks
    ensures s.calls == [LinkDel(VethPair(TruncateID(endpointID))),
                        DeletePort(networks[networkID].bridgeName, PortID(endpointID))]
    ensures s.result.Success? <==> env.ok(s.calls[1])
    ensures s.result.Failure? ==> s.result.error == CallFailed(s.calls[1])
  {
    var veth := VethPair(TruncateID(endpointID));
    var del := DeletePort(networks[networkID].bridgeName, PortPrefix + TruncateID(endpointID));
    Step(if env.ok(del) then Success(()) else Failure(CallFailed(del)), networks, [LinkDel(veth), del])
  }

  // ---------------------------------------------------------------------
  // Properties relating several handlers

  /**
   * A successful CreateNetwork followed by DeleteNetwork issues one
   * bridge-init and one bridge-delete call, for the bridge just resolved,
   * and when the delete succeeds the registry is as before less `id`.
   */
  lemma CreateThenDelete(networks: map<string, NetworkState>, r: CreateNetworkRequest, env: Env)
    requires CreateNetworkReady(r)
    requires CreateNetworkStep(networks, r, env).result.Success?
    ensures var create := CreateNetworkStep(networks, r, env);
            && r.networkID in create.networks
            && var delete := DeleteNetworkStep(create.networks, r.networkID, env);
            && create.calls + delete.calls
                 == [InitBridge(r.networkID), DeleteBridge(GetBridgeName(r.networkID, CreateOptions(r)))]
            && (delete.result.Success? ==> delete.networks == networks - {r.networkID})
  {
  }

  /** From an empty registry, creating then deleting a network leaves it empty. */
  lemma CreateThenDeleteFromEmpty(r: CreateNetworkRequest, env: Env)
    requires CreateNetworkReady(r)
    requires CreateNetworkStep(map[], r, env).result.Success?
    ensures var create := CreateNetworkStep(map[], r, env);
            r.networkID in create.networks &&
            var delete := DeleteNetworkStep(create.networks, r.networkID, env);
            delete.result.Success? ==> delete.networks == map[]
  {
    CreateThenDelete(map[], r, env);
  }

  /**
   * Name consistency: after a successful Join, Leave on the same endpoint
   * deletes the very veth pair Join created and detaches the very port, on
   * the very bridge, that Join attached.
   */
  lemma JoinThenLeave(networks: map<string, NetworkState>, driverName: string, clientEnabled: bool,
                      networkID: string, endpointID: string, env: Env, later: Env)
    requires |endpointID| >= TruncatedLength
    requires JoinRebuilds(networks, driverName, clientEnabled, networkID, endpointID, env) ==>
               |networkID| >= TruncatedLength
    requires JoinStep(networks, driverName, clientEnabled, networkID, endpointID, env).result.Success?
    ensures var join := JoinStep(networks, driverName, clientEnabled, networkID, endpointID, env);
            && networkID in join.networks
            && var leave := LeaveStep(join.networks, networkID, endpointID, later);
            && join.calls[0] == LinkAdd(leave.calls[0].veth)
            && join.calls[|join.calls| - 1] == AddPort(leave.calls[1].bridge, leave.calls[1].port, 0)
            && join.result.value.srcName == leave.calls[0].veth.peerName
  {
  }

  /**
   * Join on an unregistered network that Docker says belongs to another
   * driver: one lookup, no switch call, the registry unchanged and the
   * error NotOurNetwork; the veth pair created beforehand stays.
   */
  lemma JoinForeignNetwork(networks: map<string, NetworkState>, driverName: string,
                           networkID: string, endpointID: string, env: Env)
    requires |endpointID| >= TruncatedLength
    requires networkID !in networks
    requires env.inspect(networkID).Some? && env.inspect(networkID).value.driver != driverName
    requires var veth := VethPair(TruncateID(endpointID)); env.ok(LinkAdd(veth)) && env.ok(LinkSetUp(veth))
    ensures var veth := VethPair(TruncateID(endpointID));
            var join := JoinStep(networks, driverName, true, networkID, endpointID, env);
            && join == Step(Failure(NotOurNetwork), networks,
                            [LinkAdd(veth), LinkSetUp(veth), InspectNetwork(networkID)])
            && forall i :: 0 <= i < |join.calls| ==> !ChangesSwitch(join.calls[i])
  {
  }

  /** Whether the veth deletion in Leave succeeds has no bearing on Leave's outcome. */
  lemma LeaveIgnoresLinkDel(networks: map<string, NetworkState>, networkID: string, endpointID: string,
                            env1: Env, env2: Env)
    requires |endpointID| >= TruncatedLength
    requires networkID in networks
    requires env1.ok(DeletePort(networks[networkID].bridgeName, PortID(endpointID)))
          == env2.ok(DeletePort(networks[networkID].bridgeName, PortID(endpointID)))
    ensures LeaveStep(networks, networkID, endpointID, env1) == LeaveStep(networks, networkID, endpointID, env2)
  {
  }

  /**
   * A worked example with every service call succeeding: a network created
   * without options gets the defaults, and an endpoint joining it is handed
   * the peer "ethc" + "endpo" and the network's gateway.
   */
  lemma CreateThenJoinExample(env: Env)
    requires forall c :: env.ok(c)
    ensures var request := CreateNetworkRequest("net1a2b3c", [IPAMData("10.0.0.1")], map[]);
            var create := CreateNetworkStep(map[], request, env);
            && create.networks == map["net1a2b3c" := NetworkState("ovsbr-net1a", 1500, "nat", "10.0.0.1", "24", "")]
            && JoinStep(create.networks, "ovs", true, "net1a2b3c", "endpoint12345", env).result
                 == Success(JoinResponse("ethcendpo", "eth", "10.0.0.1"))
  {
    var request := CreateNetworkRequest("net1a2b3c", [IPAMData("10.0.0.1")], map[]);
    var ns := NetworkState("ovsbr-net1a", 1500, "nat", "10.0.0.1", "24", "");
    assert CreateOptions(request) == map[];
    ResolveDefaults("net1a2b3c", "10.0.0.1");
    assert "net1a2b3c"[..TruncatedLength] == "net1a";
    assert BridgePrefix + "net1a" == "ovsbr-net1a";
    assert ResolveNetworkState("net1a2b3c", map[], "10.0.0.1") == Success(ns);
    assert env.ok(InitBridge("net1a2b3c"));
    var create := CreateNetworkStep(map[], request, env);
    assert create.networks == map["net1a2b3c" := ns];
    assert "endpoint12345"[..TruncatedLength] == "endpo";
    assert PeerPrefix + "endpo" == "ethcendpo";
    var veth := VethPair("endpo");
    assert env.ok(LinkAdd(veth)) && env.ok(LinkSetUp(veth));
    assert env.ok(AddPort(ns.bridgeName, veth.name, 0));
  }

  // ---------------------------------------------------------------------
  // The driver object

  class Driver {
    /** The driver name Docker knows this plugin by ("ovs"). */
    const name: string
    /** Whether a Docker client is available for rebuilding lost state. */
    const clientEnabled: bool
    /** The registry: network id to its resolved configuration. */
    var networks: map<string, NetworkState>
    /** Every service call issued so far, oldest first. */
    ghost var trace: seq<Call>

    ghost predicate Valid()
      reads this
    {
      AllWellFormed(networks)
    }

    /** A fresh driver has an empty registry and has issued no call. */
    constructor (name: string, clientEnabled: bool)
      ensures Valid()
      ensures this.name == name && this.clientEnabled == clientEnabled
      ensures networks == map[] && trace == []
    {
      this.name := name;
      this.clientEnabled := clientEnabled;
      networks := map[];
      trace := [];
    }

    method SetupNetworkState(id: string, options: map<string, string>, gateway: string, env: Env)
      returns (r: Result<NetworkState, Error>)
      requires Valid()
      requires |id| >= TruncatedLength
      modifies this
      ensures Valid()
      ensures var s := SetupNetworkStep(old(networks), id, options, gateway, env);
              r == s.result && networks == s.networks && trace == old(trace) + s.calls
    {
      var resolved := ResolveNetworkState(id, options, gateway);
      if resolved.Failure? {
        return Failure(resolved.error);
      }
      var ns := resolved.value;
      networks := networks[id := ns];
      trace := trace + [InitBridge(id)];
      if !env.ok(InitBridge(id)) {
        networks := networks - {id};
        return Failure(CallFailed(InitBridge(id)));
      }
      r := Success(ns);
    }

    method FindNetworkState(id: string, env: Env) returns (r: Result<NetworkState, Error>)
      requires Valid()
      requires Rebuilds(networks, name, clientEnabled, id, env) ==> |id| >= TruncatedLength
      modifies this
      ensures Valid()
      ensures var s := FindNetworkStep(old(networks), name, clientEnabled, id, env);
              r == s.result && networks == s.networks && trace == old(trace) + s.calls
      ensures r.Success? ==> WellFormed(r.value)
    {
      if id in networks {
        return Success(networks[id]);
      }
      if !clientEnabled {
        return Failure(DockerClientDisabled);
      }
      trace := trace + [InspectNetwork(id)];
      var inspected := env.inspect(id);
      if inspected.None? {
        return Failure(CallFailed(InspectNetwork(id)));
      }
      var resource := inspected.value;
      if resource.driver != name {
        return Failure(NotOurNetwork);
      }
      var gateway := SelectGateway(resource.ipamConfigs, env.isIPv4);
      r := SetupNetworkState(id, resource.options, gateway, env);
    }

    method CreateNetwork(request: CreateNetworkRequest, env: Env) returns (r: Result<(), Error>)
      requires Valid()
      requires CreateNetworkReady(request)
      modifies this
      ensures Valid()
      ensures var s := CreateNetworkStep(old(networks), request, env);
              r == s.result && networks == s.networks && trace == old(trace) + s.calls
    {
      var options := StringOptions(request.options);
      var setup := SetupNetworkState(request.networkID, options.GetOr(map[]), request.ipv4Data[0].gateway, env);
      if setup.Failure? {
        return Failure(setup.error);
      }
      r := Success(());
    }

    method DeleteNetwork(id: string, env: Env) returns (r: Result<(), Error>)
      requires Valid()
      requires id in networks
      modifies this
      ensures Valid()
      ensures var s := DeleteNetworkStep(old(networks), id, env);
              r == s.result && networks == s.networks && trace == old(trace) + s.calls
    {
      var bridgeName := networks[id].bridgeName;
      trace := trace + [DeleteBridge(bridgeName)];
      if !env.ok(DeleteBridge(bridgeName)) {
        return Failure(CallFailed(DeleteBridge(bridgeName)));
      }
      networks := networks - {id};
      r := Success(());
    }

    method Join(networkID: string, endpointID: string, env: Env) returns (r: Result<JoinResponse, Error>)
      requires Valid()
      requires |endpointID| >= TruncatedLength
      requires JoinRebuilds(networks, name, clientEnabled, networkID, endpointID, env) ==>
                 |networkID| >= TruncatedLength
      modifies this
      ensures Valid()
      ensures var s := JoinStep(old(networks), name, clientEnabled, networkID, endpointID, env);
              r == s.result && networks == s.networks && trace == old(trace) + s.calls
    {
      var veth := VethPair(TruncateID(endpointID));
      trace := trace + [LinkAdd(veth)];
      if !env.ok(LinkAdd(veth)) {
        return Failure(CallFailed(LinkAdd(veth)));
      }
      trace := trace + [LinkSetUp(veth)];
      if !env.ok(LinkSetUp(veth)) {
        return Failure(CallFailed(LinkSetUp(veth)));
      }
      var found := FindNetworkState(networkID, env);
      if found.Failure? {
        return Failure(found.error);
      }
      var ns := found.value;
      var add := AddPort(ns.bridgeName, veth.name, 0);
      trace := trace + [add];
      if !env.ok(add) {
        return Failure(CallFailed(add));
      }
      r := Success(JoinResponse(veth.peerName, ContainerEthName, ns.gateway));
    }

    method Leave(networkID: string, endpointID: string, env: Env) returns (r: Result<(), Error>)
      requires Valid()
      requires |endpointID| >= TruncatedLength
      requires networkID in networks
      modifies this
      ensures Valid()
      ensures var s := LeaveStep(old(networks), networkID, endpointID, env);
              r == s.result && networks == s.networks && trace == old(trace) + s.calls
    {
      var veth := VethPair(TruncateID(endpointID));
      trace := trace + [LinkDel(veth)];
      // a failed veth deletion is only logged
      var portID := PortPrefix + TruncateID(endpointID);
      var bridgeName := networks[networkID].bridgeName;
      trace := trace + [DeletePort(bridgeName, portID)];
      if !env.ok(DeletePort(bridgeName, portID)) {
        return Failure(CallFailed(DeletePort(bridgeName, portID)));
      }
      r := Success(());
    }
  }
}
