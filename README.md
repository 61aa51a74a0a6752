# Open vSwitch network driver for Docker: lifecycle orchestrator model

This project models the core of a Docker network plugin that backs each
Docker network with an Open vSwitch bridge (`ovs/driver.go`). It covers:

- **Option resolution.** Docker passes driver options as decoded JSON. Only
  the string entries under `com.docker.network.generic` are kept. From them
  the driver derives a network's bridge name, MTU, mode and bind interface.
  Defaults apply, and one validation is made: the mode must be `nat` or `flat`.
- **Naming.** Endpoint and network ids are cut to their first five characters.
  The host-side veth and the OVS port are both named `ovs-veth0-<id5>`. The
  container-side peer is named `ethc<id5>`. A derived bridge is named `ovsbr-<id5>`.
- **The registry.** The driver keeps a map from network id to network state.
  CreateNetwork, DeleteNetwork, Join and Leave change or read it while they call
  OVSDB (bridges, ports), netlink (veth links) and the Docker API (inspect network).

Modules:

- `Wrappers`: `Option` (Go's nil) and `Result` (Go's `(value, error)`).
- `Strconv`: `strconv.Atoi` on a 64-bit platform, and its inverse for the round trip.
- `Names`: the naming scheme.
- `Services`: the external calls as data. `Call` is one request. `Error` is
  what the handlers return. `Env` is the outside world: which calls succeed,
  what Docker reports for a network, and which strings are IPv4 addresses.
- `Options`: option decoding, the `getBridge*` resolvers and the `NetworkState` they build.
- `Driver`: each handler as a pure `...Step` function and as a method of
  `class Driver`. A step gives the result, the registry afterwards and the
  service calls issued, in order. Each method follows the Go code statement by
  statement. Each method is proved to produce exactly its step. The class also
  keeps a ghost trace of all calls, and every handler preserves the registry
  invariant (valid mode, mask `"24"`).

Preconditions are the places where the Go code panics:

- `truncateID` needs at least five characters.
- DeleteNetwork and Leave dereference the entry of an id that must be registered.
- CreateNetwork reads `IPv4Data[0]`.

Join needs a network id of five characters only when it goes on to rebuild
that network's entry.

`getBridgeName`, `getBridgeMTU` and `getBindInterface` always return a nil
error. The model returns their values alone, so "never an error" holds by type.
Only `getBridgeMode` returns a `Result`.

Notes on what the code does:

- Rollback is a delete. When bridge initialisation fails, the entry for the id
  is removed, even if one was there before the call.
- Join creates the veth pair and brings it up before it looks the network up.
  A Join on a network that belongs to another driver therefore fails with the
  pair already created (`Driver.JoinForeignNetwork`).
- Derived bridge names are not unique. Two networks whose ids share their first
  five characters get the same bridge (`Options.DerivedBridgeNamesCollide`).
- The MTU is not range-checked. Zero and negative values are accepted. Any value
  that `strconv.Atoi` rejects, including one outside the 64-bit range, falls back to 1500.
- For the endpoint `endpoint12345` the peer is `ethcendpo`, because only five
  characters are kept (`Driver.CreateThenJoinExample`).

## Model

| member | source | states |
|---|---|---|
| `Strconv.Atoi` | ovs/driver.go:332 | Parsing succeeds if and only if the string is an optional sign followed by one or more digits and its signed value fits in 64 bits. The result is that signed value, so a lone sign, the empty string and out-of-range input all fail. |
| `Strconv.AtoiDecimal` | ovs/driver.go:332 | Every 64-bit integer printed in decimal parses back to itself. |
| `Names.TruncateID` | ovs/driver.go:326-328 | The result has five characters and is a prefix of the id. |
| `Names.VethPair` | ovs/driver.go:308-314 | The host side starts with `ovs-veth0-`. The peer starts with `ethc` (and so with the container prefix `eth`). The two names differ. Both fit the kernel's 15-character limit for a five-character suffix. |
| `Names.PortID` | ovs/driver.go:249 | The port Leave deletes is the host-side veth name Join attaches. |
| `Names.VethPairInjective` | ovs/driver.go:309-314 | Two suffixes give the same veth pair if and only if they are equal. |
| `Names.EndpointNamesCollide` | ovs/driver.go:326-328 | Two endpoints get the same veth pair if and only if their ids share the first five characters. |
| `Options.StringEntries` | ovs/driver.go:112-117 | A key is kept if and only if its value is a string, and the value is kept unchanged. |
| `Options.StringOptionsOf` | ovs/driver.go:108-123 | The result is nil unless the generic key holds an object. Otherwise it is exactly that object's string entries. |
| `Options.StringOptions` | ovs/driver.go:108-123 | The loop over the nested map returns what `StringOptionsOf` specifies. |
| `Options.GetBridgeMTU` | ovs/driver.go:330-336 | The MTU is the parsed option when it parses. When it does not parse it is 1500: an absent option, one with no numeric syntax, and one outside the 64-bit range. The result always fits in 64 bits. |
| `Options.MtuRoundTrip` | ovs/driver.go:330-336 | An MTU option written as a decimal integer is read back exactly. |
| `Options.GetBridgeName` | ovs/driver.go:338-344 | A present name option wins, even when empty. Otherwise the name is `ovsbr-` followed by the truncated id. |
| `Options.DerivedBridgeNamesCollide` | ovs/driver.go:338-344 | Without a name option, two ids get the same bridge name if and only if their first five characters agree. |
| `Options.GetBridgeMode` | ovs/driver.go:346-355 | An absent option gives `nat`. `nat` and `flat` are returned as given. Any other value, including "", is an InvalidMode error naming it. |
| `Options.GetBindInterface` | ovs/driver.go:397-403 | The option when present, otherwise "". Never an error. |
| `Options.ResolveNetworkState` | ovs/driver.go:125-163 | Resolution fails if and only if the mode option is present and invalid. A resolved state is well formed (valid mode, mask `"24"`), carries the given gateway, and takes its name, MTU, mode and bind interface from the resolvers, so a `flat` network is recorded as `flat`. |
| `Options.ResolveDefaults` | ovs/driver.go:125-163 | With no options a network gets `ovsbr-<id5>`, MTU 1500, mode `nat`, mask `"24"` and no bind interface. |
| `Driver.FirstIPv4Index` | ovs/driver.go:85-93 | The index of the first IPAM entry whose gateway is IPv4: no entry before it is IPv4. The index equals the length when there is none. |
| `Driver.SelectGateway` | ovs/driver.go:85-93 | The early-exit loop returns the first IPv4 gateway, or "" when there is none. |
| `Driver.SetupNetworkStep` | ovs/driver.go:125-171 | An invalid mode fails with no call and no registry change. Otherwise `initBridge(id)` is the only call. On success the registry gains `id` mapped to the returned state, with the given gateway and mask `"24"`. On failure the error is passed on and the registry is the old one without `id`. |
| `Driver.FindNetworkStep` | ovs/driver.go:63-96 | A hit returns the stored state with no call and no change. A miss with no Docker client fails with no call. A miss with a Docker client issues exactly one inspect. If the inspect fails, its error is returned with no further call. If the network belongs to another driver, NotOurNetwork is returned with no further call. None of these failures registers anything. A rebuild is `setupNetworkState` with the inspected options and the first IPv4 gateway. Entries other than `id` never change. A returned state is well formed when the registry was. |
| `Driver.CreateNetworkStep` | ovs/driver.go:98-103 | Setup runs on the generic string options (nil as empty) and the first IPv4 data's gateway. On success that gateway is stored for the id. |
| `Driver.DeleteNetworkStep` | ovs/driver.go:174-185 | `deleteBridge` is called with the stored bridge name. On success exactly `id` is removed. On failure the registry is unchanged and the error is returned. |
| `Driver.JoinStep` | ovs/driver.go:204-241 | LinkAdd comes first, and a LinkAdd or LinkSetUp failure ends Join with only those calls made. After both succeed, the registry lookup runs and its calls follow. A lookup error is returned with no further call. Otherwise AddPort of `ovs-veth0-<id5>` on the found bridge is issued, Join succeeds if and only if it does, and its error is returned. A success returns peer `ethc<id5>`, prefix `eth` and the network's gateway. Its last call attaches the port `ovs-veth0-<id5>` to the network's bridge. Only the joined network's entry can change. |
| `Driver.LeaveStep` | ovs/driver.go:243-259 | The calls are LinkDel, then DeletePort of `ovs-veth0-<id5>` on the stored bridge. Leave succeeds if and only if the port deletion does, and returns that call's error. The registry is unchanged. |
| `Driver.LeaveIgnoresLinkDel` | ovs/driver.go:246-248 | The outcome of the veth deletion has no effect on what Leave returns or does. |
| `Driver.CreateThenDelete` | ovs/driver.go:164-183 | A successful create followed by a delete issues one `initBridge` and one `deleteBridge` of the bridge just resolved. A successful delete leaves the old registry without the id. |
| `Driver.CreateThenDeleteFromEmpty` | ovs/driver.go:164-183 | Starting from an empty registry, create then a successful delete leave it empty. |
| `Driver.JoinThenLeave` | ovs/driver.go:204-259 | After a successful Join, Leave deletes the same veth pair and detaches the same port from the same bridge. The peer Join returned is the peer of that pair. |
| `Driver.JoinForeignNetwork` | ovs/driver.go:204-222 | Joining an unregistered network owned by another driver makes exactly LinkAdd, LinkSetUp and one inspect, fails with NotOurNetwork and leaves the registry unchanged. None of these calls changes the switch. |
| `Driver.CreateThenJoinExample` | ovs/driver.go:204-241 | With all calls succeeding, `net1a2b3c` is registered with `ovsbr-net1a`, MTU 1500, mode `nat`, and Join of `endpoint12345` returns `ethcendpo`, `eth` and the gateway. |
| `Driver.Driver.constructor` | ovs/driver.go:293-302 | A new driver has an empty registry and has issued no call. |
| `Driver.Driver.SetupNetworkState` | ovs/driver.go:125-172 | Inserting, calling `initBridge` and deleting on failure gives exactly `SetupNetworkStep`. The registry invariant is kept. |
| `Driver.Driver.FindNetworkState` | ovs/driver.go:63-96 | The lookup, inspect, driver check, gateway loop and setup give exactly `FindNetworkStep`. Because the registry invariant holds, a returned state has a valid mode and mask `"24"`. |
| `Driver.Driver.CreateNetwork` | ovs/driver.go:98-103 | Gives exactly `CreateNetworkStep`. |
| `Driver.Driver.DeleteNetwork` | ovs/driver.go:174-185 | Gives exactly `DeleteNetworkStep`. |
| `Driver.Driver.Join` | ovs/driver.go:204-241 | Gives exactly `JoinStep`, and the calls are added to the trace in order. |
| `Driver.Driver.Leave` | ovs/driver.go:243-259 | Gives exactly `LeaveStep`. |

## Left out

- `main.go` (flag parsing, log level, serving the plugin socket) is process plumbing.
- `NewDriver`'s Docker client creation, its three-attempt OVSDB connection loop with
  a five-second sleep, and `initDBCache` are I/O and timing. The constructor models
  only the empty registry and whether a Docker client exists.
- The bodies of the OVSDB, netlink and Docker client calls, and `net.ParseIP`, are
  foreign libraries. `Env` answers each call, and `isIPv4` stands for `ParseIP(..).To4() != nil`.
  The OVSDB helper code behind `initBridge`, `deleteBridge`, `addOvsVethPort` and
  `deletePort` is not part of this model.
- `getGatewayIP` is dead code: its body is commented out and it always fails.
- `interfaceUp` is never called.
- `CreateEndpoint`, `DeleteEndpoint`, `EndpointInfo`, `ProgramExternalConnectivity` and
  `RevokeExternalConnectivity` do nothing beyond returning an empty answer.
- Logging and error message text are left out. Errors are modelled by kind, and a failed
  service call carries the call that failed.
- Concurrency is left out. The source has no locking around the registry, and the model
  treats handlers as running one at a time.
- JSON numbers in the generic options are modelled as integers, not floats. The driver
  drops every non-string value, so this has no effect.
- A nil pointer as the first IPv4 data entry of a create request is not modelled.
- A nil options map is modelled as an empty one. Go reads both alike.
- Names.TruncateID: ids are sequences of characters, while Go's `id[:5]` takes five bytes and
  panics below five bytes. The two agree for ASCII ids, such as the hexadecimal ids Docker issues;
  a non-ASCII id is cut differently, or is excluded by the requires where Go accepts it.
- Names.PortID: Leave builds the port name with `fmt.Sprintf`, which reads it as a format string.
  The model treats that as the identity, which is exact when the first five characters of the
  endpoint id contain no `%`. For other ids the source deletes a different port from the one Join
  attached, and `Driver.JoinThenLeave` does not describe the source.
