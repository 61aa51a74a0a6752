/**
 * Option resolution: flattening Docker's generic options and deriving a
 * network's configuration (bridge name, MTU, mode, bind interface) from
 * them, with the driver's defaults and its one validation.
 */
module Options {
  import opened Wrappers
  import opened Strconv
  import opened Names
  import opened Services

  /** Top-level key under which Docker passes driver options. */
  const OptionKey: string := "com.docker.network.generic"
  const MtuOption: string := "net.gopher.ovs.bridge.mtu"
  const ModeOption: string := "net.gopher.ovs.bridge.mode"
  const BridgeNameOption: string := "net.gopher.ovs.bridge.name"
  const BindInterfaceOption: string := "net.gopher.ovs.bridge.bind_interface"

  const ModeNAT: string := "nat"
  const ModeFlat: string := "flat"
  const DefaultMTU: int := 1500
  const DefaultMode: string := ModeNAT
  /** The gateway mask every network gets; the real derivation is unfinished. */
  const PlaceholderMask: string := "24"

  /** A value decoded from JSON into Go's `interface{}`. */
  datatype Value =
    | Str(str: string)
    | Number(number: int)
    | Boolean(boolean: bool)
    | Null
    | List(items: seq<Value>)
    | Object(fields: map<string, Value>)

  /** The configuration the driver keeps for one network. */
  datatype NetworkState = NetworkState(
    bridgeName: string,
    mtu: int,
    mode: string,
    gateway: string,
    gatewayMask: string,
    flatBindInterface: string)

  predicate ValidMode(mode: string) {
    mode == ModeNAT || mode == ModeFlat
  }

  /** What every registered network satisfies. */
  predicate WellFormed(ns: NetworkState) {
    ValidMode(ns.mode) && ns.gatewayMask == PlaceholderMask
  }

  /** The string-valued entries of a decoded JSON object, unchanged. */
  function StringEntries(fields: map<string, Value>): (r: map<string, string>)
    ensures forall k :: k in r <==> k in fields && fields[k].Str?
    ensures forall k :: k in r ==> r[k] == fields[k].str
  {
    map k | k in fields && fields[k].Str? :: fields[k].str
  }

  /**
   * `stringOptions`: nil (`None`) unless the generic key is present and holds
   * an object; then exactly that object's string-valued entries. A nil
   * options map reads like an empty one, so it is the empty map here.
   */
  function StringOptionsOf(options: map<string, Value>): (r: Option<map<string, string>>)
    ensures r.Some? <==> OptionKey in options && options[OptionKey].Object?
    ensures r.Some? ==> r.value == StringEntries(options[OptionKey].fields)
  {
    if OptionKey in options && options[OptionKey].Object?
    then Some(StringEntries(options[OptionKey].fields))
    else None
  }

  /** `stringOptions` as the source computes it, one entry at a time. */
  method StringOptions(options: map<string, Value>) returns (out: Option<map<string, string>>)
    ensures out == StringOptionsOf(options)
  {
    if OptionKey in options && options[OptionKey].Object? {
      var fields := options[OptionKey].fields;
      var result: map<string, string> := map[];
      var remaining := fields.Keys;
      while remaining != {}
        invariant remaining <= fields.Keys
        invariant forall k :: k in result <==> k in fields && k !in remaining && fields[k].Str?
        invariant forall k :: k in result ==> result[k] == fields[k].str
        decreases remaining
      {
        var key :| key in remaining;
        var value := fields[key];
        if value.Str? {
          result := result[key := value.str];
        }
        remaining := remaining - {key};
      }
      assert result == StringEntries(fields);
      out := Some(result);
    } else {
      out := None;
    }
  }

  /** Reading a Go map: an absent key yields the empty string. */
  function Get(options: map<string, string>, key: string): (v: string)
    ensures key in options ==> v == options[key]
    ensures key !in options ==> v == ""
  {
    if key in options then options[key] else ""
  }

  /**
   * `getBridgeMTU`: the MTU option when it parses as an integer, else 1500.
   * Its error result is always nil, so the model returns the integer alone.
   */
  function GetBridgeMTU(options: map<string, string>): (mtu: int)
    ensures Atoi(Get(options, MtuOption)).Some? ==> mtu == Atoi(Get(options, MtuOption)).value
    ensures Atoi(Get(options, MtuOption)).None? ==> mtu == DefaultMTU
    ensures MtuOption !in options ==> mtu == DefaultMTU
    ensures MtuOption in options && !NumericSyntax(options[MtuOption]) ==> mtu == DefaultMTU
    ensures MinInt64 <= mtu <= MaxInt64
  {
    match Atoi(Get(options, MtuOption))
    case Some(n) => n
    case None => DefaultMTU
  }

  /**
   * `getBridgeName`: the bridge-name option whenever it is present, even
   * empty; otherwise "ovsbr-" and the first five characters of the id.
   * Its error result is always nil.
   */
  function GetBridgeName(id: string, options: map<string, string>): (name: string)
    requires |id| >= TruncatedLength
    ensures BridgeNameOption in options ==> name == options[BridgeNameOption]
    ensures BridgeNameOption !in options ==>
              BridgePrefix <= name && name[|BridgePrefix|..] == TruncateID(id)
  {
    var derived := BridgePrefix + TruncateID(id);
    if BridgeNameOption in options then options[BridgeNameOption] else derived
  }

  /**
   * `getBridgeMode`: "nat" when the mode option is absent, the option when it
   * is "nat" or "flat", and an error for any other value, "" included.
   */
  function GetBridgeMode(options: map<string, string>): (r: Result<string, Error>)
    ensures ModeOption !in options ==> r == Success(DefaultMode)
    ensures ModeOption in options ==>
              r == if ValidMode(options[ModeOption]) then Success(options[ModeOption])
                   else Failure(InvalidMode(options[ModeOption]))
    ensures r.Success? ==> ValidMode(r.value)
  {
    if ModeOption in options then
      var mode := options[ModeOption];
      if mode in {ModeNAT, ModeFlat} then Success(mode) else Failure(InvalidMode(mode))
    else
      Success(DefaultMode)
  }

  /** `getBindInterface`: the option if present, else "". Never an error. */
  function GetBindInterface(options: map<string, string>): (iface: string)
    ensures BindInterfaceOption in options ==> iface == options[BindInterfaceOption]
    ensures BindInterfaceOption !in options ==> iface == ""
  {
    if BindInterfaceOption in options then options[BindInterfaceOption] else ""
  }

  /**
   * The configuration `setupNetworkState` builds before it registers a
   * network: it fails exactly when the mode option is invalid.
   */
  function ResolveNetworkState(id: string, options: map<string, string>, gateway: string)
    : (r: Result<NetworkState, Error>)
    requires |id| >= TruncatedLength
    ensures r.Failure? <==> ModeOption in options && !ValidMode(options[ModeOption])
    ensures r.Failure? ==> r.error == InvalidMode(options[ModeOption])
    ensures r.Success? ==> WellFormed(r.value) && r.value.gateway == gateway
    ensures r.Success? ==>
              && r.value.bridgeName == GetBridgeName(id, options)
              && r.value.mtu == GetBridgeMTU(options)
              && r.value.mode == GetBridgeMode(options).value
              && r.value.flatBindInterface == GetBindInterface(options)
  {
    var bridgeName := GetBridgeName(id, options);
    var mtu := GetBridgeMTU(options);
    match GetBridgeMode(options)
    case Failure(e) => Failure(e)
    case Success(mode) =>
      Success(NetworkState(bridgeName, mtu, mode, gateway, PlaceholderMask, GetBindInterface(options)))
  }

  /** Without options a network gets every default. */
  lemma ResolveDefaults(id: string, gateway: string)
    requires |id| >= TruncatedLength
    ensures ResolveNetworkState(id, map[], gateway)
         == Success(NetworkState(BridgePrefix + id[..TruncatedLength], DefaultMTU, ModeNAT, gateway, "24", ""))
  {
  }

  /** An MTU written as Go prints an integer is read back exactly. */
  lemma MtuRoundTrip(options: map<string, string>, n: int)
    requires MinInt64 <= n <= MaxInt64
    ensures GetBridgeMTU(options[MtuOption := Decimal(n)]) == n
  {
    AtoiDecimal(n);
  }

  /**
   * Derived bridge names are deterministic and collide exactly when the
   * ids share their first five characters.
   */
  lemma DerivedBridgeNamesCollide(id1: string, id2: string, options: map<string, string>)
    requires |id1| >= TruncatedLength && |id2| >= TruncatedLength
    requires BridgeNameOption !in options
    ensures GetBridgeName(id1, options) == GetBridgeName(id2, options)
        <==> id1[..TruncatedLength] == id2[..TruncatedLength]
  {
  }
}
