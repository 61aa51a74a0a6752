/**
 * The vocabulary of the external services the driver drives: OVSDB
 * (bridges and ports), netlink (veth links) and the Docker API (network
 * inspection). Their implementations are not part of this model; each call
 * is a value of `Call` and its outcome is read from an `Env`.
 */
module Services {
  import opened Wrappers
  import opened Names

  /** One request issued to an external service. */
  datatype Call =
    | InitBridge(networkID: string)                          // OVSDB: create the bridge of a network
    | DeleteBridge(bridge: string)                           // OVSDB: remove a bridge by name
    | AddPort(bridge: string, port: string, tag: int)        // OVSDB: addOvsVethPort
    | DeletePort(bridge: string, port: string)               // OVSDB: deletePort
    | LinkAdd(veth: Veth)                                    // netlink: create a veth pair
    | LinkSetUp(veth: Veth)                                  // netlink: bring the host side up
    | LinkDel(veth: Veth)                                    // netlink: delete a veth pair
    | InspectNetwork(networkID: string)                      // Docker: inspect a network

  /** Errors the orchestrator returns. */
  datatype Error =
    | InvalidMode(mode: string)        // "<mode> is not a valid mode"
    | DockerClientDisabled             // no Docker client to rebuild lost state
    | NotOurNetwork                    // the inspected network has another driver
    | CallFailed(call: Call)           // the error a service call returned, passed on

  /** One entry of a Docker network's IPAM configuration. */
  datatype IPAMConfig = IPAMConfig(gateway: string)

  /** What `InspectNetwork` reports about a network. */
  datatype NetworkResource = NetworkResource(
    driver: string,
    options: map<string, string>,
    ipamConfigs: seq<IPAMConfig>)

  /**
   * The world outside the driver: whether each call succeeds, what Docker
   * reports for a network id (`None` when inspection fails), and whether a
   * string parses as an IPv4 address (`net.ParseIP(s).To4() != nil`).
   */
  datatype Env = Env(
    ok: Call -> bool,
    inspect: string -> Option<NetworkResource>,
    isIPv4: string -> bool)

  /** True of the calls that change the switch's configuration. */
  predicate ChangesSwitch(c: Call) {
    c.InitBridge? || c.DeleteBridge? || c.AddPort? || c.DeletePort?
  }
}
