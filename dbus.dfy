/** The parts of the NetworkManager D-Bus interface that the client reads, as plain records.
    Every property read can fail (the remote object vanished, the bus did not answer), so each
    one is a `Result`. */
module Dbus {

  /** An object path on the system bus; the key of every registry. */
  type Path = string

  type Uint8 = x: int | 0 <= x < 256

  /** The outcome of a remote query, or of a step made of such queries (Rust's `?`). */
  datatype Result<T> = Ok(value: T) | Err

  datatype Option<T> = None | Some(value: T)

  /** The device types the client distinguishes; every other NetworkManager type is `OtherType`. */
  datatype DeviceType = Ethernet | Wifi | Modem | OtherType(code: nat)

  /** A NetworkManager device state; `Activated` is the one the classifiers compare against.
      Which states count as enabled is decided by a predicate passed in by the caller. */
  datatype DeviceState = Activated | OtherState(code: nat)

  /** What one device answers during one pass: its `DeviceType` and `State` properties, and the
      `ActiveAccessPoint` of the wireless facet built on the device's own path (building that
      facet and reading the property fail together). */
  datatype Device = Device(
    deviceType: Result<DeviceType>,
    state: Result<DeviceState>,
    activeAccessPoint: Result<Path>)

  /** What an access point answers: its raw SSID bytes and its strength in percent. */
  datatype AccessPoint = AccessPoint(ssid: Result<seq<Uint8>>, strength: Result<Uint8>)

  /** What an active connection answers: its `Type` string. */
  datatype ActiveConnection = ActiveConnection(connectionType: Result<string>)

  datatype Interface = DeviceInterface | ActiveConnectionInterface

  /** A local proxy bound to one remote object. Two proxies are the same handle only if they are
      the same object, which is how the model tells a reused handle from a freshly built one. */
  class Proxy {
    const path: Path
    const iface: Interface

    constructor (path: Path, iface: Interface)
      ensures this.path == path && this.iface == iface
    {
      this.path := path;
      this.iface := iface;
    }
  }
}
