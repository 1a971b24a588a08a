/** The connectivity summary and the four per-technology classifiers (`determine_*_state`).
    Each classifier is a loop over the values of a path-keyed map in its iteration order, proved
    against a specification function (`*Outcome`); lemmas then give the order-free reading of
    each outcome and the exact condition under which a classifier fails. */
module NetworkManagerState {
  import opened Dbus
  import opened PathMaps

  datatype State = State(wired: WiredState, wifi: WifiState, cellular: CellularState, vpn: VpnState)

  datatype WiredState = Connected | Disconnected | NotPresent | Unknown

  datatype WifiState = Connected(detail: WifiConnectedState) | Disconnected | Disabled | NotPresent | Unknown

  /** `strength` is a percentage; the bus type is a byte, so nothing bounds it by 100. */
  datatype WifiConnectedState = WifiConnectedState(ssid: string, strength: Uint8)

  datatype CellularState = Connected | Disconnected | Disabled | NotPresent | Unknown

  datatype VpnState = Connected(info: VpnConnectedState) | Disconnected | Unknown

  datatype VpnConnectedState = VpnConnectedState(name: string)

  // ---------------------------------------------------------------------------------------------
  // Wired

  predicate IsEthernet(d: Device) { d.deviceType == Ok(Ethernet) }

  /** Visiting `d` fails: its type cannot be read, or it is Ethernet and its state cannot be read. */
  predicate WiredQueryFails(d: Device) { d.deviceType.Err? || (IsEthernet(d) && d.state.Err?) }

  /** The condition the wired loop breaks on: an Ethernet device whose state is enabled. */
  predicate EthernetEnabled(d: Device, isEnabled: DeviceState -> bool)
  {
    IsEthernet(d) && d.state.Ok? && isEnabled(d.state.value)
  }

  /** The wired loop stops at a device that fails or that it breaks on. */
  function WiredStop(isEnabled: DeviceState -> bool): Device -> bool
  {
    d => WiredQueryFails(d) || EthernetEnabled(d, isEnabled)
  }

  /** What `determine_wired_state` returns when it visits the devices in `order`. */
  function WiredOutcome(devices: map<Path, Device>, order: seq<Path>, isEnabled: DeviceState -> bool): (r: Result<WiredState>)
    requires IsOrderOf(order, devices.Keys)
    ensures r.Ok? ==> !r.value.Unknown?
  {
    var k := FirstWhere(devices, order, WiredStop(isEnabled));
    if k < |order| then
      if WiredQueryFails(devices[order[k]]) then Err else Ok(WiredState.Connected)
    else if exists p :: p in devices && IsEthernet(devices[p]) then Ok(WiredState.Disconnected)
    else Ok(WiredState.NotPresent)
  }

  /** The order-free classification: Connected iff some Ethernet device is enabled, NotPresent
      iff there is no Ethernet device, Disconnected otherwise. */
  function WiredByPresence(devices: map<Path, Device>, isEnabled: DeviceState -> bool): WiredState
  {
    if exists p :: p in devices && EthernetEnabled(devices[p], isEnabled) then WiredState.Connected
    else if exists p :: p in devices && IsEthernet(devices[p]) then WiredState.Disconnected
    else WiredState.NotPresent
  }

  method DetermineWiredState(devices: map<Path, Device>, order: seq<Path>, isEnabled: DeviceState -> bool)
    returns (r: Result<WiredState>)
    requires IsOrderOf(order, devices.Keys)
    ensures r == WiredOutcome(devices, order, isEnabled)
  {
    var present := false;
    var connected := false;
    var i := 0;
    while i < |order|
      invariant 0 <= i <= |order|
      invariant !connected
      invariant forall j :: 0 <= j < i ==> !WiredStop(isEnabled)(devices[order[j]])
      invariant present <==> exists j :: 0 <= j < i && IsEthernet(devices[order[j]])
    {
      var device := devices[order[i]];
      if device.deviceType.Err? {
        FirstWhereAt(devices, order, WiredStop(isEnabled), i);
        return Err;
      }
      if device.deviceType.value == Ethernet {
        present := true;
        if device.state.Err? {
          FirstWhereAt(devices, order, WiredStop(isEnabled), i);
          return Err;
        }
        if isEnabled(device.state.value) {
          connected := true;
          FirstWhereAt(devices, order, WiredStop(isEnabled), i);
          break;
        }
      }
      i := i + 1;
    }
    if !connected {
      FirstWhereAt(devices, order, WiredStop(isEnabled), |order|);
      SomeKeyIffSomePosition(devices, order, IsEthernet);
    }

    if connected {
      r := Ok(WiredState.Connected);
    } else if present {
      r := Ok(WiredState.Disconnected);
    } else {
      r := Ok(WiredState.NotPresent);
    }
  }

  /** When no device query fails, the wired result is the order-free classification. */
  lemma WiredWithoutFailures(devices: map<Path, Device>, order: seq<Path>, isEnabled: DeviceState -> bool)
    requires IsOrderOf(order, devices.Keys)
    requires forall p :: p in devices ==> !WiredQueryFails(devices[p])
    ensures WiredOutcome(devices, order, isEnabled) == Ok(WiredByPresence(devices, isEnabled))
  {
    var k := FirstWhere(devices, order, WiredStop(isEnabled));
    if k < |order| {
      assert EthernetEnabled(devices[order[k]], isEnabled);
    } else {
      SomeKeyIffSomePosition(devices, order, d => EthernetEnabled(d, isEnabled));
    }
  }

  /** Without query failures the iteration order does not matter. */
  lemma WiredOrderIrrelevant(devices: map<Path, Device>, order1: seq<Path>, order2: seq<Path>, isEnabled: DeviceState -> bool)
    requires IsOrderOf(order1, devices.Keys) && IsOrderOf(order2, devices.Keys)
    requires forall p :: p in devices ==> !WiredQueryFails(devices[p])
    ensures WiredOutcome(devices, order1, isEnabled) == WiredOutcome(devices, order2, isEnabled)
  {
    WiredWithoutFailures(devices, order1, isEnabled);
    WiredWithoutFailures(devices, order2, isEnabled);
  }

  /** The wired classifier fails exactly when a query fails on a device visited before the first
      enabled Ethernet device. */
  lemma WiredErrIff(devices: map<Path, Device>, order: seq<Path>, isEnabled: DeviceState -> bool)
    requires IsOrderOf(order, devices.Keys)
    ensures WiredOutcome(devices, order, isEnabled).Err? <==>
      exists i :: 0 <= i < |order| && WiredQueryFails(devices[order[i]])
               && forall j :: 0 <= j < i ==> !EthernetEnabled(devices[order[j]], isEnabled)
  {
    var k := FirstWhere(devices, order, WiredStop(isEnabled));
    if i :| 0 <= i < |order| && WiredQueryFails(devices[order[i]])
               && forall j :: 0 <= j < i ==> !EthernetEnabled(devices[order[j]], isEnabled) {
      assert WiredStop(isEnabled)(devices[order[i]]);
      assert k <= i;
    }
  }

  // ---------------------------------------------------------------------------------------------
  // Wi-Fi

  predicate IsWifi(d: Device) { d.deviceType == Ok(Wifi) }

  predicate WifiEnabled(d: Device, isEnabled: DeviceState -> bool)
  {
    IsWifi(d) && d.state.Ok? && isEnabled(d.state.value)
  }

  /** An enabled Wi-Fi device whose active access point is a real path (not "/"). */
  predicate WifiAssociated(d: Device, isEnabled: DeviceState -> bool)
  {
    WifiEnabled(d, isEnabled) && d.activeAccessPoint.Ok? && d.activeAccessPoint.value != "/"
  }

  /** Visiting `d` fails: its type, the state of a Wi-Fi device, the active access point of an
      enabled one, or the proxy for a real access point cannot be obtained. */
  predicate WifiQueryFails(d: Device, isEnabled: DeviceState -> bool, accessPoints: Path -> Result<AccessPoint>)
  {
    || d.deviceType.Err?
    || (IsWifi(d) && d.state.Err?)
    || (WifiEnabled(d, isEnabled) && d.activeAccessPoint.Err?)
    || (WifiAssociated(d, isEnabled) && accessPoints(d.activeAccessPoint.value).Err?)
  }

  /** The condition the Wi-Fi loop breaks on: an associated device whose access point was reached. */
  predicate WifiReached(d: Device, isEnabled: DeviceState -> bool, accessPoints: Path -> Result<AccessPoint>)
  {
    WifiAssociated(d, isEnabled) && accessPoints(d.activeAccessPoint.value).Ok?
  }

  function WifiStop(isEnabled: DeviceState -> bool, accessPoints: Path -> Result<AccessPoint>): Device -> bool
  {
    d => WifiQueryFails(d, isEnabled, accessPoints) || WifiReached(d, isEnabled, accessPoints)
  }

  /** The details reported for a reached access point: an unreadable SSID becomes "unkown" and an
      unreadable strength becomes 0; neither failure fails the classifier. */
  function ConnectedDetail(ap: AccessPoint, decodeSsid: seq<Uint8> -> string): (detail: WifiConnectedState)
    ensures ap.ssid.Err? ==> detail.ssid == "unkown"
    ensures ap.ssid.Ok? ==> detail.ssid == decodeSsid(ap.ssid.value)
    ensures ap.strength.Err? ==> detail.strength == 0
    ensures ap.strength.Ok? ==> detail.strength == ap.strength.value
  {
    WifiConnectedState(
      if ap.ssid.Ok? then decodeSsid(ap.ssid.value) else "unkown",
      if ap.strength.Ok? then ap.strength.value else 0)
  }

  /** What `determine_wifi_state` returns when it visits the devices in `order`. */
  function WifiOutcome(accessPoints: Path -> Result<AccessPoint>, decodeSsid: seq<Uint8> -> string,
                       devices: map<Path, Device>, order: seq<Path>, isEnabled: DeviceState -> bool): (r: Result<WifiState>)
    requires IsOrderOf(order, devices.Keys)
    ensures r.Ok? ==> !r.value.Unknown?
  {
    var k := FirstWhere(devices, order, WifiStop(isEnabled, accessPoints));
    if k < |order| then
      var d := devices[order[k]];
      if WifiQueryFails(d, isEnabled, accessPoints) then Err
      else Ok(WifiState.Connected(ConnectedDetail(accessPoints(d.activeAccessPoint.value).value, decodeSsid)))
    else if exists p :: p in devices && WifiEnabled(devices[p], isEnabled) then Ok(WifiState.Disconnected)
    else if exists p :: p in devices && IsWifi(devices[p]) then Ok(WifiState.Disabled)
    else Ok(WifiState.NotPresent)
  }

  method DetermineWifiState(accessPoints: Path -> Result<AccessPoint>, decodeSsid: seq<Uint8> -> string,
                            devices: map<Path, Device>, order: seq<Path>, isEnabled: DeviceState -> bool)
    returns (r: Result<WifiState>)
    requires IsOrderOf(order, devices.Keys)
    ensures r == WifiOutcome(accessPoints, decodeSsid, devices, order, isEnabled)
  {
    var present := false;
    var enabled := false;
    var connected: Option<AccessPoint> := None;
    var i := 0;
    while i < |order|
      invariant 0 <= i <= |order|
      invariant connected.None?
      invariant forall j :: 0 <= j < i ==> !WifiStop(isEnabled, accessPoints)(devices[order[j]])
      invariant present <==> exists j :: 0 <= j < i && IsWifi(devices[order[j]])
      invariant enabled <==> exists j :: 0 <= j < i && WifiEnabled(devices[order[j]], isEnabled)
    {
      var device := devices[order[i]];
      if device.deviceType.Err? {
        FirstWhereAt(devices, order, WifiStop(isEnabled, accessPoints), i);
        return Err;
      }
      if device.deviceType.value == Wifi {
        present := true;
        if device.state.Err? {
          FirstWhereAt(devices, order, WifiStop(isEnabled, accessPoints), i);
          return Err;
        }
        if isEnabled(device.state.value) {
          enabled := true;
          if device.activeAccessPoint.Err? {
            FirstWhereAt(devices, order, WifiStop(isEnabled, accessPoints), i);
            return Err;
          }
          var primaryAccessPointPath := device.activeAccessPoint.value;
          if primaryAccessPointPath != "/" {
            var accessPoint := accessPoints(primaryAccessPointPath);
            FirstWhereAt(devices, order, WifiStop(isEnabled, accessPoints), i);
            if accessPoint.Err? {
              return Err;
            }
            connected := Some(accessPoint.value);
            break;
          }
        }
      }
      i := i + 1;
    }
    if connected.None? {
      FirstWhereAt(devices, order, WifiStop(isEnabled, accessPoints), |order|);
      SomeKeyIffSomePosition(devices, order, IsWifi);
      SomeKeyIffSomePosition(devices, order, d => WifiEnabled(d, isEnabled));
    }

    if connected.Some? {
      var accessPoint := connected.value;
      var ssid := if accessPoint.ssid.Ok? then decodeSsid(accessPoint.ssid.value) else "unkown";
      var strength := if accessPoint.strength.Ok? then accessPoint.strength.value else 0;
      r := Ok(WifiState.Connected(WifiConnectedState(ssid, strength)));
    } else if enabled {
      r := Ok(WifiState.Disconnected);
    } else if present {
      r := Ok(WifiState.Disabled);
    } else {
      r := Ok(WifiState.NotPresent);
    }
  }

  /** A Wi-Fi state with its connection details dropped. */
  datatype WifiKind = Connected | Disconnected | Disabled | NotPresent | Unknown

  function KindOf(s: WifiState): WifiKind
  {
    match s
    case Connected(_) => WifiKind.Connected
    case Disconnected => WifiKind.Disconnected
    case Disabled => WifiKind.Disabled
    case NotPresent => WifiKind.NotPresent
    case Unknown => WifiKind.Unknown
  }

  /** The order-free classification of the Wi-Fi outcome's kind. */
  function WifiKindByPresence(devices: map<Path, Device>, isEnabled: DeviceState -> bool): WifiKind
  {
    if exists p :: p in devices && WifiAssociated(devices[p], isEnabled) then WifiKind.Connected
    else if exists p :: p in devices && WifiEnabled(devices[p], isEnabled) then WifiKind.Disconnected
    else if exists p :: p in devices && IsWifi(devices[p]) then WifiKind.Disabled
    else WifiKind.NotPresent
  }

  /** When no query fails: the Wi-Fi result is Connected iff some enabled Wi-Fi device has an
      access point other than "/", and then carries the details of such a device's access point;
      otherwise Disconnected iff some Wi-Fi device is enabled, Disabled iff some Wi-Fi device
      exists, and NotPresent otherwise. */
  lemma WifiWithoutFailures(accessPoints: Path -> Result<AccessPoint>, decodeSsid: seq<Uint8> -> string,
                             devices: map<Path, Device>, order: seq<Path>, isEnabled: DeviceState -> bool)
    requires IsOrderOf(order, devices.Keys)
    requires forall p :: p in devices ==> !WifiQueryFails(devices[p], isEnabled, accessPoints)
    ensures var r := WifiOutcome(accessPoints, decodeSsid, devices, order, isEnabled);
      && r.Ok?
      && KindOf(r.value) == WifiKindByPresence(devices, isEnabled)
      && (r.value.Connected? ==>
            exists p :: p in devices && WifiAssociated(devices[p], isEnabled)
              && accessPoints(devices[p].activeAccessPoint.value).Ok?
              && r.value.detail == ConnectedDetail(accessPoints(devices[p].activeAccessPoint.value).value, decodeSsid))
  {
    var k := FirstWhere(devices, order, WifiStop(isEnabled, accessPoints));
    if k < |order| {
      var p := order[k];
      assert WifiReached(devices[p], isEnabled, accessPoints);
    } else {
      SomeKeyIffSomePosition(devices, order, d => WifiAssociated(d, isEnabled));
      forall j | 0 <= j < |order| ensures !WifiAssociated(devices[order[j]], isEnabled) {
        assert !WifiStop(isEnabled, accessPoints)(devices[order[j]]);
      }
    }
  }

  /** Without query failures the iteration order can change which access point is reported, but
      not the kind of the Wi-Fi result. */
  lemma WifiKindOrderIrrelevant(accessPoints: Path -> Result<AccessPoint>, decodeSsid: seq<Uint8> -> string,
                                devices: map<Path, Device>, order1: seq<Path>, order2: seq<Path>, isEnabled: DeviceState -> bool)
    requires IsOrderOf(order1, devices.Keys) && IsOrderOf(order2, devices.Keys)
    requires forall p :: p in devices ==> !WifiQueryFails(devices[p], isEnabled, accessPoints)
    ensures var r1 := WifiOutcome(accessPoints, decodeSsid, devices, order1, isEnabled);
            var r2 := WifiOutcome(accessPoints, decodeSsid, devices, order2, isEnabled);
            r1.Ok? && r2.Ok? && KindOf(r1.value) == KindOf(r2.value)
  {
    WifiWithoutFailures(accessPoints, decodeSsid, devices, order1, isEnabled);
    WifiWithoutFailures(accessPoints, decodeSsid, devices, order2, isEnabled);
  }

  /** The Wi-Fi classifier fails exactly when a query fails on a device visited before the first
      device whose access point was reached. */
  lemma WifiErrIff(accessPoints: Path -> Result<AccessPoint>, decodeSsid: seq<Uint8> -> string,
                   devices: map<Path, Device>, order: seq<Path>, isEnabled: DeviceState -> bool)
    requires IsOrderOf(order, devices.Keys)
    ensures WifiOutcome(accessPoints, decodeSsid, devices, order, isEnabled).Err? <==>
      exists i :: 0 <= i < |order| && WifiQueryFails(devices[order[i]], isEnabled, accessPoints)
               && forall j :: 0 <= j < i ==> !WifiReached(devices[order[j]], isEnabled, accessPoints)
  {
    var k := FirstWhere(devices, order, WifiStop(isEnabled, accessPoints));
    if i :| 0 <= i < |order| && WifiQueryFails(devices[order[i]], isEnabled, accessPoints)
               && forall j :: 0 <= j < i ==> !WifiReached(devices[order[j]], isEnabled, accessPoints) {
      assert WifiStop(isEnabled, accessPoints)(devices[order[i]]);
      assert k <= i;
    }
  }

  // ---------------------------------------------------------------------------------------------
  // Cellular

  predicate IsModem(d: Device) { d.deviceType == Ok(Modem) }

  predicate CellularQueryFails(d: Device) { d.deviceType.Err? || (IsModem(d) && d.state.Err?) }

  predicate ModemEnabled(d: Device, isEnabled: DeviceState -> bool)
  {
    IsModem(d) && d.state.Ok? && isEnabled(d.state.value)
  }

  /** The condition the cellular loop breaks on: a modem that is enabled and Activated. */
  predicate ModemActivated(d: Device, isEnabled: DeviceState -> bool)
  {
    ModemEnabled(d, isEnabled) && d.state.value == Activated
  }

  function CellularStop(isEnabled: DeviceState -> bool): Device -> bool
  {
    d => CellularQueryFails(d) || ModemActivated(d, isEnabled)
  }

  /** What `determine_cellular_state` returns when it visits the devices in `order`. */
  function CellularOutcome(devices: map<Path, Device>, order: seq<Path>, isEnabled: DeviceState -> bool): (r: Result<CellularState>)
    requires IsOrderOf(order, devices.Keys)
    ensures r.Ok? ==> !r.value.Unknown?
  {
    var k := FirstWhere(devices, order, CellularStop(isEnabled));
    if k < |order| then
      if CellularQueryFails(devices[order[k]]) then Err else Ok(CellularState.Connected)
    else if exists p :: p in devices && ModemEnabled(devices[p], isEnabled) then Ok(CellularState.Disconnected)
    else if exists p :: p in devices && IsModem(devices[p]) then Ok(CellularState.Disabled)
    else Ok(CellularState.NotPresent)
  }

  method DetermineCellularState(devices: map<Path, Device>, order: seq<Path>, isEnabled: DeviceState -> bool)
    returns (r: Result<CellularState>)
    requires IsOrderOf(order, devices.Keys)
    ensures r == CellularOutcome(devices, order, isEnabled)
  {
    var present := false;
    var enabled := false;
    var connected := false;
    var i := 0;
    while i < |order|
      invariant 0 <= i <= |order|
      invariant !connected
      invariant forall j :: 0 <= j < i ==> !CellularStop(isEnabled)(devices[order[j]])
      invariant present <==> exists j :: 0 <= j < i && IsModem(devices[order[j]])
      invariant enabled <==> exists j :: 0 <= j < i && ModemEnabled(devices[order[j]], isEnabled)
    {
      var device := devices[order[i]];
      if device.deviceType.Err? {
        FirstWhereAt(devices, order, CellularStop(isEnabled), i);
        return Err;
      }
      if device.deviceType.value == Modem {
        present := true;
        if device.state.Err? {
          FirstWhereAt(devices, order, CellularStop(isEnabled), i);
          return Err;
        }
        if isEnabled(device.state.value) {
          enabled := true;
          if device.state.value == Activated {
            connected := true;
            FirstWhereAt(devices, order, CellularStop(isEnabled), i);
            break;
          }
        }
      }
      i := i + 1;
    }
    if !connected {
      FirstWhereAt(devices, order, CellularStop(isEnabled), |order|);
      SomeKeyIffSomePosition(devices, order, IsModem);
      SomeKeyIffSomePosition(devices, order, d => ModemEnabled(d, isEnabled));
    }

    if connected {
      r := Ok(CellularState.Connected);
    } else if enabled {
      r := Ok(CellularState.Disconnected);
    } else if present {
      r := Ok(CellularState.Disabled);
    } else {
      r := Ok(CellularState.NotPresent);
    }
  }

  /** The order-free four-tier classification: Connected iff some modem is enabled and Activated,
      else Disconnected iff some modem is enabled, else Disabled iff some modem exists, else
      NotPresent. */
  function CellularByPresence(devices: map<Path, Device>, isEnabled: DeviceState -> bool): CellularState
  {
    if exists p :: p in devices && ModemActivated(devices[p], isEnabled) then CellularState.Connected
    else if exists p :: p in devices && ModemEnabled(devices[p], isEnabled) then CellularState.Disconnected
    else if exists p :: p in devices && IsModem(devices[p]) then CellularState.Disabled
    else CellularState.NotPresent
  }

  lemma CellularWithoutFailures(devices: map<Path, Device>, order: seq<Path>, isEnabled: DeviceState -> bool)
    requires IsOrderOf(order, devices.Keys)
    requires forall p :: p in devices ==> !CellularQueryFails(devices[p])
    ensures CellularOutcome(devices, order, isEnabled) == Ok(CellularByPresence(devices, isEnabled))
  {
    var k := FirstWhere(devices, order, CellularStop(isEnabled));
    if k < |order| {
      assert ModemActivated(devices[order[k]], isEnabled);
    } else {
      SomeKeyIffSomePosition(devices, order, d => ModemActivated(d, isEnabled));
    }
  }

  lemma CellularOrderIrrelevant(devices: map<Path, Device>, order1: seq<Path>, order2: seq<Path>, isEnabled: DeviceState -> bool)
    requires IsOrderOf(order1, devices.Keys) && IsOrderOf(order2, devices.Keys)
    requires forall p :: p in devices ==> !CellularQueryFails(devices[p])
    ensures CellularOutcome(devices, order1, isEnabled) == CellularOutcome(devices, order2, isEnabled)
  {
    CellularWithoutFailures(devices, order1, isEnabled);
    CellularWithoutFailures(devices, order2, isEnabled);
  }

  lemma CellularErrIff(devices: map<Path, Device>, order: seq<Path>, isEnabled: DeviceState -> bool)
    requires IsOrderOf(order, devices.Keys)
    ensures CellularOutcome(devices, order, isEnabled).Err? <==>
      exists i :: 0 <= i < |order| && CellularQueryFails(devices[order[i]])
               && forall j :: 0 <= j < i ==> !ModemActivated(devices[order[j]], isEnabled)
  {
    var k := FirstWhere(devices, order, CellularStop(isEnabled));
    if i :| 0 <= i < |order| && CellularQueryFails(devices[order[i]])
               && forall j :: 0 <= j < i ==> !ModemActivated(devices[order[j]], isEnabled) {
      assert CellularStop(isEnabled)(devices[order[i]]);
      assert k <= i;
    }
  }

  // ---------------------------------------------------------------------------------------------
  // VPN

  predicate IsVpnType(c: ActiveConnection)
  {
    c.connectionType == Ok("vpn") || c.connectionType == Ok("wireguard")
  }

  function VpnStop(c: ActiveConnection): bool
  {
    c.connectionType.Err? || IsVpnType(c)
  }

  /** What `determine_vpn_state` returns when it visits the active connections in `order`. */
  function VpnOutcome(connections: map<Path, ActiveConnection>, order: seq<Path>): (r: Result<VpnState>)
    requires IsOrderOf(order, connections.Keys)
    ensures r.Ok? ==> !r.value.Unknown?
  {
    var k := FirstWhere(connections, order, VpnStop);
    if k < |order| then
      if connections[order[k]].connectionType.Err? then Err
      else Ok(VpnState.Connected(VpnConnectedState("unknown")))
    else Ok(VpnState.Disconnected)
  }

  method DetermineVpnState(connections: map<Path, ActiveConnection>, order: seq<Path>) returns (r: Result<VpnState>)
    requires IsOrderOf(order, connections.Keys)
    ensures r == VpnOutcome(connections, order)
  {
    var i := 0;
    while i < |order|
      invariant 0 <= i <= |order|
      invariant forall j :: 0 <= j < i ==> !VpnStop(connections[order[j]])
    {
      var connection := connections[order[i]];
      if connection.connectionType.Err? {
        FirstWhereAt(connections, order, VpnStop, i);
        return Err;
      }
      var connectionType := connection.connectionType.value;
      if connectionType == "vpn" || connectionType == "wireguard" {
        FirstWhereAt(connections, order, VpnStop, i);
        return Ok(VpnState.Connected(VpnConnectedState("unknown")));
      }
      i := i + 1;
    }
    FirstWhereAt(connections, order, VpnStop, |order|);
    r := Ok(VpnState.Disconnected);
  }

  /** When no type query fails: Connected, named "unknown", iff some active connection has type
      "vpn" or "wireguard"; Disconnected otherwise, in particular for no active connection. */
  lemma VpnWithoutFailures(connections: map<Path, ActiveConnection>, order: seq<Path>)
    requires IsOrderOf(order, connections.Keys)
    requires forall p :: p in connections ==> connections[p].connectionType.Ok?
    ensures VpnOutcome(connections, order) ==
      if exists p :: p in connections && IsVpnType(connections[p])
      then Ok(VpnState.Connected(VpnConnectedState("unknown")))
      else Ok(VpnState.Disconnected)
  {
    SomeKeyIffSomePosition(connections, order, IsVpnType);
    var k := FirstWhere(connections, order, VpnStop);
    if k == |order| {
      forall j | 0 <= j < |order| ensures !IsVpnType(connections[order[j]]) {
        assert !VpnStop(connections[order[j]]);
      }
    }
  }

  lemma VpnOrderIrrelevant(connections: map<Path, ActiveConnection>, order1: seq<Path>, order2: seq<Path>)
    requires IsOrderOf(order1, connections.Keys) && IsOrderOf(order2, connections.Keys)
    requires forall p :: p in connections ==> connections[p].connectionType.Ok?
    ensures VpnOutcome(connections, order1) == VpnOutcome(connections, order2)
  {
    VpnWithoutFailures(connections, order1);
    VpnWithoutFailures(connections, order2);
  }

  lemma VpnErrIff(connections: map<Path, ActiveConnection>, order: seq<Path>)
    requires IsOrderOf(order, connections.Keys)
    ensures VpnOutcome(connections, order).Err? <==>
      exists i :: 0 <= i < |order| && connections[order[i]].connectionType.Err?
               && forall j :: 0 <= j < i ==> !IsVpnType(connections[order[j]])
  {
    var k := FirstWhere(connections, order, VpnStop);
    if i :| 0 <= i < |order| && connections[order[i]].connectionType.Err?
               && forall j :: 0 <= j < i ==> !IsVpnType(connections[order[j]]) {
      assert VpnStop(connections[order[i]]);
      assert k <= i;
    }
  }
}
