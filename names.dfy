/**
 * The fixed naming scheme of the driver: endpoint and network identifiers
 * are cut to their first five characters, and the host-side veth, its
 * container-side peer and the OVS port are named from that suffix.
 */
module Names {

  const TruncatedLength: nat := 5
  /** Prefix of the host-side veth, which is also the OVS port name. */
  const PortPrefix: string := "ovs-veth0-"
  /** Prefix of the container-side veth before Docker renames it. */
  const PeerPrefix: string := "ethc"
  /** Prefix of a bridge name derived from a network id. */
  const BridgePrefix: string := "ovsbr-"
  /** Prefix Docker gives the container interface (eth0, eth1, ...). */
  const ContainerEthName: string := "eth"
  /** Longest interface name Linux accepts: IFNAMSIZ (16) less the NUL. */
  const MaxInterfaceName: nat := 15

  /** A veth pair as handed to netlink: the host side and its peer. */
  datatype Veth = Veth(name: string, peerName: string)

  /** `truncateID`: the first five characters; shorter ids make Go panic. */
  function TruncateID(id: string): (t: string)
    requires |id| >= TruncatedLength
    ensures |t| == TruncatedLength && t <= id
  {
    id[..TruncatedLength]
  }

  /** `vethPair`: the pair created for an endpoint with the given suffix. */
  function VethPair(suffix: string): (v: Veth)
    ensures v.name != v.peerName
    ensures PortPrefix <= v.name && PeerPrefix <= v.peerName && ContainerEthName <= v.peerName
    ensures |suffix| == TruncatedLength ==>
              |v.name| <= MaxInterfaceName && |v.peerName| <= MaxInterfaceName
  {
    var v := Veth(PortPrefix + suffix, PeerPrefix + suffix);
    assert v.name[0] != v.peerName[0];
    v
  }

  /**
   * The OVS port name `Leave` deletes for an endpoint: it is the host-side
   * veth name `Join` attached to the bridge.
   */
  function PortID(endpointID: string): (p: string)
    requires |endpointID| >= TruncatedLength
    ensures p == VethPair(TruncateID(endpointID)).name
    ensures |p| == |PortPrefix| + TruncatedLength
  {
    PortPrefix + TruncateID(endpointID)
  }

  /** Two suffixes give the same pair exactly when they are equal. */
  lemma VethPairInjective(a: string, b: string)
    ensures VethPair(a) == VethPair(b) <==> a == b
  {
    if VethPair(a) == VethPair(b) {
      assert a == VethPair(a).name[|PortPrefix|..];
      assert b == VethPair(b).name[|PortPrefix|..];
    }
  }

  /**
   * Endpoints collide on interface names exactly when their ids share the
   * first five characters.
   */
  lemma EndpointNamesCollide(e1: string, e2: string)
    requires |e1| >= TruncatedLength && |e2| >= TruncatedLength
    ensures VethPair(TruncateID(e1)) == VethPair(TruncateID(e2)) <==> e1[..TruncatedLength] == e2[..TruncatedLength]
  {
    VethPairInjective(TruncateID(e1), TruncateID(e2));
  }
}
