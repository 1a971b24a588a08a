/** The NetworkManager client: the published state, the two path-keyed registries, the resync
    done by a list watcher on each "list changed" notification, the presence check of a property
    watcher, the two state-merge rules and the initialisation done by `run`.
    Threads and locks are gone: each step is one sequential operation on a `Client`. */
module NetworkManagerClient {
  import opened Dbus
  import opened PathMaps
  import opened NetworkManagerState

  /** What the bus answers during one state update: the properties read through each proxy, the
      access point reached by building a proxy on a path, the lossy UTF-8 decoding of an SSID,
      and which device states count as enabled (`DeviceState::is_enabled`). */
  datatype Bus = Bus(
    device: Proxy -> Device,
    activeConnection: Proxy -> ActiveConnection,
    accessPoints: Path -> Result<AccessPoint>,
    decodeSsid: seq<Uint8> -> string,
    isEnabled: DeviceState -> bool)

  /** `next` is a resync of `prev` against the reported `paths`: it holds exactly the reported
      paths, and every path that was already tracked keeps its handle. */
  ghost predicate IsResyncOf(prev: map<Path, Proxy>, paths: seq<Path>, next: map<Path, Proxy>)
  {
    && next.Keys == (set p | p in paths)
    && forall p :: p in next && p in prev ==> next[p] == prev[p]
  }

  /** Resyncing twice against the same paths changes nothing the second time. */
  lemma ResyncIsIdempotent(prev: map<Path, Proxy>, paths: seq<Path>, once: map<Path, Proxy>, twice: map<Path, Proxy>)
    requires IsResyncOf(prev, paths, once) && IsResyncOf(once, paths, twice)
    ensures twice == once
  {
    assert twice.Keys == once.Keys;
    forall p | p in twice ensures twice[p] == once[p] {
    }
  }

  /** The body of a list watcher's iteration: builds the new path map from the reported paths,
      reusing the handle of every path already in `current` and building one for each other path.
      A failed build abandons the whole map. */
  method Resync(current: map<Path, Proxy>, newPaths: seq<Path>, iface: Interface, builds: Path -> bool)
    returns (r: Result<map<Path, Proxy>>)
    ensures r.Ok? <==> forall p :: p in newPaths && p !in current ==> builds(p)
    ensures r.Ok? ==> IsResyncOf(current, newPaths, r.value)
    ensures r.Ok? ==> forall p :: p in r.value && p !in current ==>
      fresh(r.value[p]) && r.value[p].path == p && r.value[p].iface == iface
  {
    var newPathMap: map<Path, Proxy> := map[];
    var i := 0;
    while i < |newPaths|
      invariant 0 <= i <= |newPaths|
      invariant newPathMap.Keys == set j | 0 <= j < i :: newPaths[j]
      invariant forall p :: p in newPathMap && p in current ==> newPathMap[p] == current[p]
      invariant forall p :: p in newPathMap && p !in current ==>
        fresh(newPathMap[p]) && newPathMap[p].path == p && newPathMap[p].iface == iface
      invariant forall j :: 0 <= j < i && newPaths[j] !in current ==> builds(newPaths[j])
    {
      var newPath := newPaths[i];
      if newPath in current {
        newPathMap := newPathMap[newPath := current[newPath]];
      } else {
        if !builds(newPath) {
          return Err;
        }
        var proxy := new Proxy(newPath, iface);
        newPathMap := newPathMap[newPath := proxy];
      }
      i := i + 1;
    }
    assert newPathMap.Keys == set p | p in newPaths;
    r := Ok(newPathMap);
  }

  /** The life of one property watcher on `path`. `atStart` is the owning registry's key set when
      the watcher starts; `atNotifications[k]` is its key set when the k-th property-changed
      notification arrives. Returns how many state updates the watcher triggers before it ends. */
  method WatchProperty(path: Path, atStart: set<Path>, atNotifications: seq<set<Path>>) returns (updates: nat)
    ensures path !in atStart ==> updates == 0
    ensures updates <= |atNotifications|
    ensures forall k :: 0 <= k < updates ==> path in atNotifications[k]
    ensures path in atStart && updates < |atNotifications| ==> path !in atNotifications[updates]
  {
    if path !in atStart {
      return 0;
    }
    var k := 0;
    while k < |atNotifications|
      invariant 0 <= k <= |atNotifications|
      invariant forall j :: 0 <= j < k ==> path in atNotifications[j]
    {
      if path !in atNotifications[k] {
        break;
      }
      k := k + 1;
    }
    updates := k;
  }

  /** A device-change update fails when any of the three device classifiers fails. */
  predicate DeviceChangeFails(observed: map<Path, Device>, order: seq<Path>, bus: Bus)
    requires IsOrderOf(order, observed.Keys)
  {
    || WiredOutcome(observed, order, bus.isEnabled).Err?
    || WifiOutcome(bus.accessPoints, bus.decodeSsid, observed, order, bus.isEnabled).Err?
    || CellularOutcome(observed, order, bus.isEnabled).Err?
  }

  /** The state after a device-change update from `prev`: wired, Wi-Fi and cellular are replaced
      together and VPN is carried over; if any classifier fails the state is left as it was. */
  function DeviceChange(prev: State, observed: map<Path, Device>, order: seq<Path>, bus: Bus): (next: State)
    requires IsOrderOf(order, observed.Keys)
    ensures next.vpn == prev.vpn
    ensures DeviceChangeFails(observed, order, bus) ==> next == prev
    ensures !DeviceChangeFails(observed, order, bus) ==>
      && Ok(next.wired) == WiredOutcome(observed, order, bus.isEnabled)
      && Ok(next.wifi) == WifiOutcome(bus.accessPoints, bus.decodeSsid, observed, order, bus.isEnabled)
      && Ok(next.cellular) == CellularOutcome(observed, order, bus.isEnabled)
      && !next.wired.Unknown? && !next.wifi.Unknown? && !next.cellular.Unknown?
  {
    var wired := WiredOutcome(observed, order, bus.isEnabled);
    var wifi := WifiOutcome(bus.accessPoints, bus.decodeSsid, observed, order, bus.isEnabled);
    var cellular := CellularOutcome(observed, order, bus.isEnabled);
    if wired.Ok? && wifi.Ok? && cellular.Ok? then State(wired.value, wifi.value, cellular.value, prev.vpn)
    else prev
  }

  /** No device query of any of the three device classifiers fails. */
  predicate NoDeviceQueryFails(observed: map<Path, Device>, bus: Bus)
  {
    forall p :: p in observed ==>
      && !WiredQueryFails(observed[p])
      && !WifiQueryFails(observed[p], bus.isEnabled, bus.accessPoints)
      && !CellularQueryFails(observed[p])
  }

  /** When no query fails, a device-change update installs the order-free wired and cellular
      classifications, a Wi-Fi state of the order-free kind, and keeps VPN. */
  lemma DeviceChangeWithoutFailures(prev: State, observed: map<Path, Device>, order: seq<Path>, bus: Bus)
    requires IsOrderOf(order, observed.Keys)
    requires NoDeviceQueryFails(observed, bus)
    ensures var next := DeviceChange(prev, observed, order, bus);
      && next.wired == WiredByPresence(observed, bus.isEnabled)
      && KindOf(next.wifi) == WifiKindByPresence(observed, bus.isEnabled)
      && next.cellular == CellularByPresence(observed, bus.isEnabled)
      && next.vpn == prev.vpn
  {
    WiredWithoutFailures(observed, order, bus.isEnabled);
    WifiWithoutFailures(bus.accessPoints, bus.decodeSsid, observed, order, bus.isEnabled);
    CellularWithoutFailures(observed, order, bus.isEnabled);
  }

  /** The state after an active-connections update from `prev`: only VPN is replaced; if the VPN
      classifier fails the state is left as it was. */
  function ActiveConnectionChange(prev: State, observed: map<Path, ActiveConnection>, order: seq<Path>): (next: State)
    requires IsOrderOf(order, observed.Keys)
    ensures next.wired == prev.wired && next.wifi == prev.wifi && next.cellular == prev.cellular
    ensures VpnOutcome(observed, order).Err? ==> next == prev
    ensures VpnOutcome(observed, order).Ok? ==> next.vpn == VpnOutcome(observed, order).value && !next.vpn.Unknown?
  {
    match VpnOutcome(observed, order)
    case Ok(vpn) => prev.(vpn := vpn)
    case Err => prev
  }

  class Client {
    var state: State
    var activeConnections: map<Path, Proxy>
    var devices: map<Path, Proxy>
    /** Only ever `None`: nothing in the client tracks an access point. */
    var accessPoint: Option<(Path, Proxy)>

    /** `Client::new`: every sub-state Unknown and both registries empty. */
    constructor ()
      ensures state == State(WiredState.Unknown, WifiState.Unknown, CellularState.Unknown, VpnState.Unknown)
      ensures activeConnections == map[] && devices == map[] && accessPoint == None
    {
      state := State(WiredState.Unknown, WifiState.Unknown, CellularState.Unknown, VpnState.Unknown);
      activeConnections := map[];
      devices := map[];
      accessPoint := None;
    }

    /** What the bus answers for every tracked device. */
    function ObservedDevices(bus: Bus): (observed: map<Path, Device>)
      reads this
    {
      map p | p in devices :: bus.device(devices[p])
    }

    /** What the bus answers for every tracked active connection. */
    function ObservedConnections(bus: Bus): (observed: map<Path, ActiveConnection>)
      reads this
    {
      map p | p in activeConnections :: bus.activeConnection(activeConnections[p])
    }

    /** `update_state_for_device_change`: `ok` is false when a classifier failed, in which case
        the state is not written. */
    method UpdateStateForDeviceChange(bus: Bus, order: seq<Path>) returns (ok: bool)
      requires IsOrderOf(order, devices.Keys)
      modifies this
      ensures devices == old(devices) && activeConnections == old(activeConnections)
      ensures accessPoint == old(accessPoint)
      ensures ok == !DeviceChangeFails(ObservedDevices(bus), order, bus)
      ensures state == DeviceChange(old(state), ObservedDevices(bus), order, bus)
    {
      var observed := ObservedDevices(bus);
      var wired := DetermineWiredState(observed, order, bus.isEnabled);
      if wired.Err? {
        return false;
      }
      var wifi := DetermineWifiState(bus.accessPoints, bus.decodeSsid, observed, order, bus.isEnabled);
      if wifi.Err? {
        return false;
      }
      var cellular := DetermineCellularState(observed, order, bus.isEnabled);
      if cellular.Err? {
        return false;
      }
      state := State(wired.value, wifi.value, cellular.value, state.vpn);
      ok := true;
    }

    /** The state update of the active-connections watcher: `ok` is false when the VPN classifier
        failed, in which case the state is not written. */
    method UpdateStateForActiveConnectionChange(bus: Bus, order: seq<Path>) returns (ok: bool)
      requires IsOrderOf(order, activeConnections.Keys)
      modifies this
      ensures devices == old(devices) && activeConnections == old(activeConnections)
      ensures accessPoint == old(accessPoint)
      ensures ok == VpnOutcome(ObservedConnections(bus), order).Ok?
      ensures state == ActiveConnectionChange(old(state), ObservedConnections(bus), order)
    {
      var vpn := DetermineVpnState(ObservedConnections(bus), order);
      if vpn.Err? {
        return false;
      }
      state := State(state.wired, state.wifi, state.cellular, vpn.value);
      ok := true;
    }

    /** Resync of the device registry against a freshly read path list; the registry is written
        only when the list was read and every needed proxy was built. */
    method ResyncDevices(paths: Result<seq<Path>>, builds: Path -> bool) returns (ok: bool)
      modifies this
      ensures state == old(state) && activeConnections == old(activeConnections)
      ensures accessPoint == old(accessPoint)
      ensures ok <==> paths.Ok? && forall p :: p in paths.value && p !in old(devices) ==> builds(p)
      ensures ok ==> IsResyncOf(old(devices), paths.value, devices)
      ensures ok ==> forall p :: p in devices && p !in old(devices) ==> fresh(devices[p]) && devices[p].path == p
      ensures !ok ==> devices == old(devices)
    {
      if paths.Err? {
        return false;
      }
      var newPathMap := Resync(devices, paths.value, DeviceInterface, builds);
      if newPathMap.Err? {
        return false;
      }
      devices := newPathMap.value;
      ok := true;
    }

    /** Resync of the active-connection registry, as for devices. */
    method ResyncActiveConnections(paths: Result<seq<Path>>, builds: Path -> bool) returns (ok: bool)
      modifies this
      ensures state == old(state) && devices == old(devices)
      ensures accessPoint == old(accessPoint)
      ensures ok <==> paths.Ok? && forall p :: p in paths.value && p !in old(activeConnections) ==> builds(p)
      ensures ok ==> IsResyncOf(old(activeConnections), paths.value, activeConnections)
      ensures ok ==> forall p :: p in activeConnections && p !in old(activeConnections) ==>
        fresh(activeConnections[p]) && activeConnections[p].path == p
      ensures !ok ==> activeConnections == old(activeConnections)
    {
      if paths.Err? {
        return false;
      }
      var newPathMap := Resync(activeConnections, paths.value, ActiveConnectionInterface, builds);
      if newPathMap.Err? {
        return false;
      }
      activeConnections := newPathMap.value;
      ok := true;
    }

    /** One iteration of the devices list watcher: resync, a property watcher for every reported
        path (tracked before or not), then a device-change update whose failure is ignored.
        `alive` is false when the resync failed, which ends the watcher. `order` is the iteration
        order of the resynced registry. */
    method OnDevicesChanged(paths: Result<seq<Path>>, builds: Path -> bool, bus: Bus, order: seq<Path>)
      returns (alive: bool, watched: seq<Path>)
      requires paths.Ok? ==> IsOrderOf(order, set p | p in paths.value)
      modifies this
      ensures activeConnections == old(activeConnections) && accessPoint == old(accessPoint)
      ensures alive <==> paths.Ok? && forall p :: p in paths.value && p !in old(devices) ==> builds(p)
      ensures alive ==> IsResyncOf(old(devices), paths.value, devices) && watched == paths.value
      ensures alive ==> forall p :: p in devices && p !in old(devices) ==> fresh(devices[p]) && devices[p].path == p
      ensures alive ==> state == DeviceChange(old(state), ObservedDevices(bus), order, bus)
      ensures !alive ==> devices == old(devices) && state == old(state) && watched == []
    {
      alive := ResyncDevices(paths, builds);
      if !alive {
        return alive, [];
      }
      watched := paths.value;
      var _ := UpdateStateForDeviceChange(bus, order);
    }

    /** One iteration of the active-connections list watcher: resync, then the VPN update. A
        failure in either ends the watcher (`alive` false). */
    method OnActiveConnectionsChanged(paths: Result<seq<Path>>, builds: Path -> bool, bus: Bus, order: seq<Path>)
      returns (alive: bool)
      requires paths.Ok? ==> IsOrderOf(order, set p | p in paths.value)
      modifies this
      ensures devices == old(devices) && accessPoint == old(accessPoint)
      ensures !(paths.Ok? && forall p :: p in paths.value && p !in old(activeConnections) ==> builds(p)) ==>
        !alive && activeConnections == old(activeConnections) && state == old(state)
      ensures paths.Ok? && (forall p :: p in paths.value && p !in old(activeConnections) ==> builds(p)) ==>
        && IsResyncOf(old(activeConnections), paths.value, activeConnections)
        && (forall p :: p in activeConnections && p !in old(activeConnections) ==>
              fresh(activeConnections[p]) && activeConnections[p].path == p)
        && state == ActiveConnectionChange(old(state), ObservedConnections(bus), order)
        && alive == VpnOutcome(ObservedConnections(bus), order).Ok?
    {
      alive := ResyncActiveConnections(paths, builds);
      if !alive {
        return;
      }
      alive := UpdateStateForActiveConnectionChange(bus, order);
    }

    /** One notification of a device's property watcher: if the path has left the registry the
        watcher ends, otherwise it runs a device-change update. */
    method OnDeviceStateChanged(path: Path, bus: Bus, order: seq<Path>) returns (keepWatching: bool)
      requires IsOrderOf(order, devices.Keys)
      modifies this
      ensures devices == old(devices) && activeConnections == old(activeConnections)
      ensures accessPoint == old(accessPoint)
      ensures keepWatching == (path in devices)
      ensures keepWatching ==> state == DeviceChange(old(state), ObservedDevices(bus), order, bus)
      ensures !keepWatching ==> state == old(state)
    {
      if path !in devices {
        return false;
      }
      var _ := UpdateStateForDeviceChange(bus, order);
      keepWatching := true;
    }

    /** The active-connection block of `run`: each proxy is inserted straight into the registry,
        which is then overwritten with a local map that nothing ever filled, so on success the
        registry ends up empty. A failed list read or build ends `run`, leaving what was inserted
        so far. */
    method InitActiveConnections(paths: Result<seq<Path>>, builds: Path -> bool) returns (ok: bool)
      modifies this
      ensures state == old(state) && devices == old(devices) && accessPoint == old(accessPoint)
      ensures ok <==> paths.Ok? && forall p :: p in paths.value ==> builds(p)
      ensures ok ==> activeConnections == map[]
      ensures paths.Err? ==> activeConnections == old(activeConnections)
      ensures paths.Ok? && !ok ==>
        exists k :: && 0 <= k < |paths.value| && !builds(paths.value[k])
                    && (forall j :: 0 <= j < k ==> builds(paths.value[j]))
                    && activeConnections.Keys == old(activeConnections).Keys + set j | 0 <= j < k :: paths.value[j]
    {
      if paths.Err? {
        return false;
      }
      var localConnections: map<Path, Proxy> := map[];
      var i := 0;
      while i < |paths.value|
        invariant 0 <= i <= |paths.value|
        invariant state == old(state) && devices == old(devices) && accessPoint == old(accessPoint)
        invariant forall j :: 0 <= j < i ==> builds(paths.value[j])
        invariant activeConnections.Keys == old(activeConnections).Keys + set j | 0 <= j < i :: paths.value[j]
      {
        var path := paths.value[i];
        if !builds(path) {
          return false;
        }
        var proxy := new Proxy(path, ActiveConnectionInterface);
        activeConnections := activeConnections[path := proxy];
        i := i + 1;
      }
      activeConnections := localConnections;
      ok := true;
    }

    /** The device block of `run`: builds a proxy for every enumerated path and then installs the
        new registry. A failed list read or build ends `run` before the registry is written. */
    method InitDevices(paths: Result<seq<Path>>, builds: Path -> bool) returns (ok: bool)
      modifies this
      ensures state == old(state) && activeConnections == old(activeConnections)
      ensures accessPoint == old(accessPoint)
      ensures ok <==> paths.Ok? && forall p :: p in paths.value ==> builds(p)
      ensures ok ==> devices.Keys == set p | p in paths.value
      ensures ok ==> forall p :: p in devices ==> fresh(devices[p]) && devices[p].path == p
      ensures !ok ==> devices == old(devices)
    {
      if paths.Err? {
        return false;
      }
      var pathMap: map<Path, Proxy> := map[];
      var i := 0;
      while i < |paths.value|
        invariant 0 <= i <= |paths.value|
        invariant forall j :: 0 <= j < i ==> builds(paths.value[j])
        invariant state == old(state) && activeConnections == old(activeConnections)
        invariant devices == old(devices) && accessPoint == old(accessPoint)
        invariant pathMap.Keys == set j | 0 <= j < i :: paths.value[j]
        invariant forall p :: p in pathMap ==> fresh(pathMap[p]) && pathMap[p].path == p
      {
        var path := paths.value[i];
        if !builds(path) {
          return false;
        }
        var proxy := new Proxy(path, DeviceInterface);
        pathMap := pathMap[path := proxy];
        i := i + 1;
      }
      assert pathMap.Keys == set p | p in paths.value;
      devices := pathMap;
      ok := true;
    }

    /** `run` up to spawning the list watchers: the two initialisation blocks, a property watcher
        for every enumerated device, and a first device-change update whose failure is ignored.
        `ok` is what `run` returns; the list watchers are spawned only then. */
    method Run(connectionPaths: Result<seq<Path>>, connectionBuilds: Path -> bool,
               devicePaths: Result<seq<Path>>, deviceBuilds: Path -> bool, bus: Bus, order: seq<Path>)
      returns (ok: bool, watched: seq<Path>)
      requires devicePaths.Ok? ==> IsOrderOf(order, set p | p in devicePaths.value)
      modifies this
      ensures accessPoint == old(accessPoint)
      ensures ok <==> && connectionPaths.Ok? && (forall p :: p in connectionPaths.value ==> connectionBuilds(p))
                      && devicePaths.Ok? && (forall p :: p in devicePaths.value ==> deviceBuilds(p))
      ensures ok ==> activeConnections == map[] && devices.Keys == set p | p in devicePaths.value
      ensures ok ==> forall p :: p in devices ==> fresh(devices[p]) && devices[p].path == p
      ensures !ok ==> devices == old(devices)
      ensures connectionPaths.Err? ==> activeConnections == old(activeConnections)
      ensures connectionPaths.Ok? && (forall p :: p in connectionPaths.value ==> connectionBuilds(p)) ==>
        activeConnections == map[]
      ensures connectionPaths.Ok? && !(forall p :: p in connectionPaths.value ==> connectionBuilds(p)) ==>
        exists k :: && 0 <= k < |connectionPaths.value| && !connectionBuilds(connectionPaths.value[k])
                    && (forall j :: 0 <= j < k ==> connectionBuilds(connectionPaths.value[j]))
                    && activeConnections.Keys ==
                         old(activeConnections).Keys + set j | 0 <= j < k :: connectionPaths.value[j]
      ensures ok ==> watched == devicePaths.value
      ensures ok ==> state == DeviceChange(old(state), ObservedDevices(bus), order, bus)
      ensures !ok ==> watched == [] && state == old(state)
    {
      ok := InitActiveConnections(connectionPaths, connectionBuilds);
      if !ok {
        return false, [];
      }
      ok := InitDevices(devicePaths, deviceBuilds);
      if !ok {
        return false, [];
      }
      watched := devicePaths.value;
      var _ := UpdateStateForDeviceChange(bus, order);
    }
  }
}
