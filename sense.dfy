/**
 * The data the exporter receives from the Sense client library: the device
 * catalog of a monitor and the messages of its realtime stream. Only the
 * fields the exporter reads are kept. Errors are opaque strings.
 */
module Sense {

  datatype Option<T> = None | Some(value: T)

  /** An answer of the client library: a value or an upstream error. */
  datatype Result<T> = Ok(value: T) | Err(error: string)

  /** One entry of the device catalog returned by GetDevices. */
  datatype Device = Device(id: string, name: string, deviceType: string, make: string, model: string)

  /** What a Go map lookup yields for a key that is absent: every field empty. */
  const ZeroDevice: Device := Device("", "", "", "", "")

  /** A (device id, watts) pair of a realtime update. */
  datatype DevicePower = DevicePower(id: string, w: real)

  /** A (device id, mode, state) triple of a device-state batch. */
  datatype DeviceState = DeviceState(deviceId: string, mode: string, state: string)

  /**
   * The stream's messages: the two kinds the exporter handles, and every
   * other kind, which its type switch does not match.
   */
  datatype Message =
    | RealtimeUpdate(w: real, hz: real, voltage: seq<real>, devices: seq<DevicePower>)
    | DeviceStates(states: seq<DeviceState>)
    | OtherMessage

  /**
   * What one Stream call delivers: the messages it would feed to the
   * callback, in order, and the error value it returns when it is done.
   */
  datatype StreamScript = StreamScript(messages: seq<Message>, err: Option<string>)
}
