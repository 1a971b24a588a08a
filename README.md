# NetworkManager connectivity summary, modelled in Dafny

This project models the network-status logic behind ironbar's `networkmanager` bar module.
The client watches NetworkManager on the system bus and keeps two registries keyed by object path:
the devices and the active connections. From them it derives one `State` with four sub-states:
wired, Wi-Fi, cellular and VPN. The bar module turns each sub-state into an icon name, and the
empty name hides the icon.

The model has five modules:

- `Dbus` (`dbus.dfy`): the answers the bus gives, as records whose every read may fail (`Result`).
  A device has a type, a state and the active access point of its wireless facet.
  An access point has an SSID and a strength. An active connection has a type string.
  `Proxy` is a handle object bound to one path. Object identity tells a reused handle from a
  freshly built one.
- `PathMaps` (`path_map.dfy`): a `HashMap`'s iteration order is an arbitrary sequence listing
  every key once (`IsOrderOf`). `FirstWhere` is the position where a scanning loop stops.
- `NetworkManagerState` (`state.dfy`): the four `determine_*_state` loops are methods.
  Each one is proved equal to a specification function (`WiredOutcome`, `WifiOutcome`,
  `CellularOutcome`, `VpnOutcome`).
  Lemmas about these functions give the order-free classification when no query fails.
  They also give the exact condition under which a classifier fails. When no query fails, the
  iteration order does not change the wired, cellular and VPN results or the kind of the Wi-Fi
  result. Which access point is reported can depend on the order. When a query fails, the order
  can decide between an error and a result.
  `DeviceState::is_enabled` is not part of this model. It is passed as an uninterpreted predicate
  `isEnabled`.
- `NetworkManagerWidget` (`widget.dfy`): `strengh_to_level` (as `StrengthToLevel`), its
  reference staircase, and the icon `match` for each sub-state.
- `NetworkManagerClient` (`client.dfy`): the `Client` class.
  It holds the published state, both registries and the access-point slot.
  It models `Client::new`, one list-watcher iteration for each registry, one property-watcher
  notification, the two state-merge rules, and the initialisation blocks of `run`.
  `WatchProperty` models a whole property watcher over a sequence of registry snapshots.

The model follows the code as written, including these behaviours:

- Wired is Connected when an Ethernet device's state is enabled (`is_enabled`), not only when it is
  Activated.
- A failure while reading the path list or building a proxy ends the list watcher. So does a failed
  VPN classification in the active-connections watcher. The watcher does not go on to the next
  notification.
- The devices watcher spawns a property watcher for every reported path, not only for new ones.
- A device-change update is all-or-nothing. If any of wired, Wi-Fi or cellular fails, the state is
  left untouched.
- The Wi-Fi details are only the SSID and the strength. The VPN name is always "unknown".
- After `run`, the active-connection registry is empty. The proxies are inserted into the registry
  and then overwritten by a local map that is never filled.

## Model

| member | source | states |
|---|---|---|
| `NetworkManagerState.WiredOutcome` | src/clients/networkmanager/state.rs:78-84 | the wired classifier never yields Unknown |
| `NetworkManagerState.DetermineWiredState` | src/clients/networkmanager/state.rs:62-85 | the flag-and-break loop returns exactly the wired outcome for the given iteration order, including the error exits of `?` |
| `NetworkManagerState.WiredWithoutFailures` | src/clients/networkmanager/state.rs:65-84 | with no failed query, wired is Connected iff some Ethernet device is enabled, NotPresent iff there is no Ethernet device, and Disconnected otherwise |
| `NetworkManagerState.WiredOrderIrrelevant` | src/clients/networkmanager/state.rs:68-76 | with no failed query, two iteration orders give the same wired result |
| `NetworkManagerState.WiredErrIff` | src/clients/networkmanager/state.rs:69-71 | the wired classifier fails iff a query fails on a device visited before the first enabled Ethernet device |
| `NetworkManagerState.ConnectedDetail` | src/clients/networkmanager/state.rs:117-125 | an unreadable SSID becomes "unkown" and an unreadable strength becomes 0; readable values are passed through |
| `NetworkManagerState.WifiOutcome` | src/clients/networkmanager/state.rs:117-132 | the Wi-Fi classifier never yields Unknown |
| `NetworkManagerState.DetermineWifiState` | src/clients/networkmanager/state.rs:87-133 | the loop returns exactly the Wi-Fi outcome for the given order: it stops at the first enabled Wi-Fi device whose access point is not "/" and reports that access point's details |
| `NetworkManagerState.WifiWithoutFailures` | src/clients/networkmanager/state.rs:95-132 | with no failed query, Wi-Fi is Connected iff some enabled Wi-Fi device has an access point other than "/", and its details then come from such a device. Otherwise it is Disconnected iff some Wi-Fi device is enabled, Disabled iff one exists, and NotPresent otherwise |
| `NetworkManagerState.WifiKindOrderIrrelevant` | src/clients/networkmanager/state.rs:95-115 | with no failed query, two iteration orders give a Wi-Fi result of the same kind |
| `NetworkManagerState.WifiErrIff` | src/clients/networkmanager/state.rs:96-110 | the Wi-Fi classifier fails iff a query fails on a device visited before the first device whose access point was reached |
| `NetworkManagerState.CellularOutcome` | src/clients/networkmanager/state.rs:155-163 | the cellular classifier never yields Unknown |
| `NetworkManagerState.DetermineCellularState` | src/clients/networkmanager/state.rs:135-164 | the loop returns exactly the cellular outcome for the given iteration order |
| `NetworkManagerState.CellularWithoutFailures` | src/clients/networkmanager/state.rs:138-163 | with no failed query, cellular is Connected iff some modem is enabled and Activated. Otherwise it is Disconnected iff some modem is enabled, Disabled iff a modem exists, and NotPresent otherwise |
| `NetworkManagerState.CellularOrderIrrelevant` | src/clients/networkmanager/state.rs:142-153 | with no failed query, two iteration orders give the same cellular result |
| `NetworkManagerState.CellularErrIff` | src/clients/networkmanager/state.rs:143-147 | the cellular classifier fails iff a query fails on a device visited before the first enabled, Activated modem |
| `NetworkManagerState.VpnOutcome` | src/clients/networkmanager/state.rs:169-179 | the VPN classifier never yields Unknown |
| `NetworkManagerState.DetermineVpnState` | src/clients/networkmanager/state.rs:166-180 | the early-return loop returns exactly the VPN outcome for the given iteration order |
| `NetworkManagerState.VpnWithoutFailures` | src/clients/networkmanager/state.rs:169-179 | with no failed type query, VPN is Connected with name "unknown" iff some connection's type is "vpn" or "wireguard", and Disconnected otherwise, also for no connections |
| `NetworkManagerState.VpnOrderIrrelevant` | src/clients/networkmanager/state.rs:169-178 | with no failed type query, two iteration orders give the same VPN result |
| `NetworkManagerState.VpnErrIff` | src/clients/networkmanager/state.rs:170 | the VPN classifier fails iff a type query fails before the first VPN-typed connection |
| `NetworkManagerWidget.StrengthToLevel` | src/modules/networkmanager.rs:162-165 | the level is 0 exactly for strengths below 5; the subtraction needs at least one level once the strength is 5 or more |
| `NetworkManagerWidget.StrengthToLevelMatchesNmcli` | src/modules/networkmanager.rs:171-183 | with five levels, every strength in 0..100 lands on the nmcli staircase 0-4, 5-29, 30-54, 55-79, 80-100 |
| `NetworkManagerWidget.StrengthToLevelInRange` | src/modules/networkmanager.rs:147-165 | for at least two levels and a strength of at most 100, the level is at most the number of levels minus one |
| `NetworkManagerWidget.StrengthToLevelMonotone` | src/modules/networkmanager.rs:162-165 | a stronger signal never gives a lower level |
| `NetworkManagerWidget.FullStrengthReachesTopLevel` | src/modules/networkmanager.rs:160-165 | for at least two levels, strength 100 reaches the top level iff there are at most 21 levels |
| `NetworkManagerWidget.WiredIcon` | src/modules/networkmanager.rs:108-112 | the wired icon is hidden exactly for NotPresent and Unknown |
| `NetworkManagerWidget.WifiIcon` | src/modules/networkmanager.rs:113-128 | the icon lookup goes out of bounds exactly when the level reaches 5; otherwise the icon is hidden exactly for NotPresent and Unknown |
| `NetworkManagerWidget.CellularIcon` | src/modules/networkmanager.rs:129-134 | the cellular icon is hidden exactly for NotPresent and Unknown |
| `NetworkManagerWidget.VpnIcon` | src/modules/networkmanager.rs:135-138 | the VPN icon is shown exactly for Connected |
| `NetworkManagerWidget.WifiIconFollowsNmcli` | src/modules/networkmanager.rs:114-124 | a connected state with strength at most 100 gets the signal icon of its nmcli level, so the lookup stays in bounds |
| `NetworkManagerWidget.WifiIconOutOfBounds` | src/modules/networkmanager.rs:122-123 | every strength of 105 or more makes the icon lookup go out of bounds |
| `NetworkManagerWidget.WifiIconInBounds` | src/modules/networkmanager.rs:122-123 | every strength below 105 keeps the icon lookup in bounds |
| `NetworkManagerWidget.UnknownStateShowsNoIcon` | src/modules/networkmanager.rs:98-104 | the all-Unknown state hides every icon |
| `NetworkManagerClient.ResyncIsIdempotent` | src/clients/networkmanager/mod.rs:92-110 | resyncing twice against the same path list leaves the registry unchanged the second time |
| `NetworkManagerClient.Resync` | src/clients/networkmanager/mod.rs:92-109 | the new map holds exactly the reported paths. Tracked paths keep their handle and new paths get a fresh handle bound to them. It fails iff some new path's proxy cannot be built |
| `NetworkManagerClient.WatchProperty` | src/clients/networkmanager/mod.rs:139-156 | a watcher whose path is absent at start triggers nothing. Otherwise it triggers one update per notification while its path is present, and ends at the first notification after the path has left |
| `NetworkManagerClient.DeviceChange` | src/clients/networkmanager/mod.rs:42-49 | a device change keeps VPN and sets wired, Wi-Fi and cellular to their outcomes, none of them Unknown. If any classifier fails, the whole state is unchanged |
| `NetworkManagerClient.DeviceChangeWithoutFailures` | src/clients/networkmanager/mod.rs:42-49 | with no failed query, a device change installs the order-free wired and cellular classifications and a Wi-Fi state of the order-free kind |
| `NetworkManagerClient.ActiveConnectionChange` | src/clients/networkmanager/mod.rs:213-218 | an active-connections update replaces only VPN, with a value that is not Unknown, and changes nothing if the VPN classifier fails |
| `NetworkManagerClient.Client.constructor` | src/clients/networkmanager/mod.rs:54-76 | a new client has all four sub-states Unknown, empty registries and no access point |
| `NetworkManagerClient.Client.UpdateStateForDeviceChange` | src/clients/networkmanager/mod.rs:42-50 | the new state is the device-change merge of the old one. Registries are untouched, and the result reports whether a classifier failed |
| `NetworkManagerClient.Client.UpdateStateForActiveConnectionChange` | src/clients/networkmanager/mod.rs:211-219 | the new state is the active-connections merge of the old one. Registries are untouched |
| `NetworkManagerClient.Client.ResyncDevices` | src/clients/networkmanager/mod.rs:90-110 | on success the device registry is a resync of the old one with fresh handles for new paths. If the list read or a build fails, the registry is unchanged. Nothing else changes |
| `NetworkManagerClient.Client.ResyncActiveConnections` | src/clients/networkmanager/mod.rs:90-110 | the same resync contract for the active-connection registry |
| `NetworkManagerClient.Client.OnDevicesChanged` | src/clients/networkmanager/mod.rs:221-236 | one devices-watcher iteration resyncs, then watches every reported path (including ones already tracked), then applies the device-change merge. Paths not tracked before get fresh handles. On failure it ends with nothing changed |
| `NetworkManagerClient.Client.OnActiveConnectionsChanged` | src/clients/networkmanager/mod.rs:206-220 | one active-connections iteration resyncs and applies the VPN merge. Paths not tracked before get fresh handles. A failure in either ends the watcher |
| `NetworkManagerClient.Client.OnDeviceStateChanged` | src/clients/networkmanager/mod.rs:148-155 | a notification for a path no longer in the registry ends the watcher with nothing changed. Otherwise it applies the device-change merge |
| `NetworkManagerClient.Client.InitActiveConnections` | src/clients/networkmanager/mod.rs:161-175 | on success the active-connection registry ends empty. On a failed build it keeps the entries inserted before the failing path |
| `NetworkManagerClient.Client.InitDevices` | src/clients/networkmanager/mod.rs:177-187 | on success the device registry's keys are exactly the enumerated paths, each with a fresh handle. On failure the registry is unchanged |
| `NetworkManagerClient.Client.Run` | src/clients/networkmanager/mod.rs:161-204 | `run` succeeds iff both lists are read and every proxy is built. It then leaves an empty active-connection registry, devices keyed by the enumerated paths with fresh handles, a watcher per device and the merged state. On failure the device registry and the state are unchanged. The active-connection registry is unchanged after a failed list read. It is empty once every connection proxy is built. After a failed build it holds the connections inserted before that build |

## Left out

- The system-bus connection (`Connection::system`, the root proxy, `Box::leak`) is left out. A failure to connect in `Client::new` is not modelled.
- Proxy builders are the parameter `builds`. Property reads are the `Result` fields of the bus records, and the bus itself is the `Bus` parameter.
- `String::from_utf8_lossy` is the opaque parameter `decodeSsid`.
- `dbus.rs`, with `DeviceType`, `DeviceState` and `DeviceState::is_enabled`, is not part of this model. Device states are abstract, and `is_enabled` is the uninterpreted parameter `isEnabled`.
- Threads, `RwLock`s and concurrently running watchers are left out. Each watcher iteration is one sequential step.
- The endless `for _ in changes` loops of the list watchers are left out: `On*Changed` models one iteration, and `alive == false` is where the loop ends.
- A property watcher's notification stream, taken from the handle found at start, is left out.
- Within one state update, every classifier sees one snapshot of the bus. The source takes the registry lock three times, and its reads could observe different answers.
- In the cellular loop, the two reads of `state()` (lines 145 and 147) are one answer. A second read that fails or differs is not modelled.
- `determine_wifi_state` is called at mod.rs:45 with arguments that do not match its signature. The model uses the signature of state.rs:87-90.
- Publishing is left out: `Mutable`, `subscribe`, `create_client`, client registration, and the replay to subscribers.
- The GTK widget code, `ImageProvider` icon loading, `glib_recv!` and `send_async!` are left out. Only the icon names and the hide/show decision are modelled.
- `tracing` log messages are left out.
- The `access_point` field is only ever `None`. No access-point tracker exists in the code, so none is modelled.
- `src/bar.rs` and `src/modules/networkmanager/config.rs` are not part of this model. They hold UI plumbing and serde configuration.
- NetworkManagerWidget.StrengthToLevel: does not model the `usize` overflow of the product, which needs more than about 2^64/250 levels. It also does not model a panic on the subtraction for zero levels; that case is excluded by the requires clause instead.
