/**
 The device-side interface the ES920 wrapper is built on: the per-parameter
 setters, the three unit primitives (save to flash, load defaults, enter
 operation mode), the parameter structure and the named constants of the
 driver header. The header itself is not part of this model: every primitive
 is an opaque call whose only observable effect here is the status it returns,
 and the numeric values of the named constants are a parameter (`Header`).
 */
module Es920 {

  /** The C `int` used for every argument and status code. */
  newtype int32 = x: int | -0x8000_0000 <= x < 0x8000_0000

  /** One constructor per single-parameter setter primitive of the driver. */
  datatype Setter =
    | Node         // node role
    | Bw           // bandwidth
    | Sf           // spreading factor
    | Ch           // channel
    | Panid        // PAN network address
    | Ownid        // own network address
    | Dstid        // destination network address
    | Acksw        // acknowledge on/off
    | AckRetryNum  // acknowledge retry count
    | Trmode       // transfer mode
    | Rcvsw        // attach peer address to received frames
    | Rssisw       // attach RSSI to received frames
    | Opmode       // configuration or operation mode
    | Brate        // UART baud rate
    | Slepsw       // sleep on/off
    | Slept        // sleep timer
    | Outpw        // output power

  /** One call of the wrapper into the driver, with the argument passed. */
  datatype Call =
    | Set(setter: Setter, arg: int32)
    | SaveParam         // commit the live settings to flash
    | LoadDefault       // reload the factory settings
    | SetModeOperation  // leave configuration mode

  /** The status every primitive would return for a given call: 0 is success,
      anything else is failure. The device is opaque, so this is all the
      wrapper can observe of it. */
  type Oracle = Call -> int32

  /** Numeric values of the driver header's named constants used by the wrapper. */
  datatype Header = Header(
    nodeEndDevice: int32,
    bandwidth125K: int32,
    sf7: int32,
    ackOn: int32,
    trasmodPayload: int32,
    rcvidOn: int32,
    rssiOn: int32,
    modeOperation: int32,
    modeConfigration: int32,
    baud115200: int32,
    sleepOff: int32)

  /** The driver's wireless settings structure: one field per setter. */
  datatype Es920Param = Es920Param(
    node: int32,
    bw: int32,
    sf: int32,
    ch: int32,
    panid: int32,
    ownid: int32,
    dstid: int32,
    ack: int32,
    retry: int32,
    transmod: int32,
    rcvid: int32,
    rssi: int32,
    mode: int32,
    baudrate: int32,
    sleep: int32,
    sleeptime: int32,
    power: int32)

  /** The field of the settings structure that a given setter consumes. */
  function Field(p: Es920Param, s: Setter): int32
  {
    match s
    case Node => p.node
    case Bw => p.bw
    case Sf => p.sf
    case Ch => p.ch
    case Panid => p.panid
    case Ownid => p.ownid
    case Dstid => p.dstid
    case Acksw => p.ack
    case AckRetryNum => p.retry
    case Trmode => p.transmod
    case Rcvsw => p.rcvid
    case Rssisw => p.rssi
    case Opmode => p.mode
    case Brate => p.baudrate
    case Slepsw => p.sleep
    case Slept => p.sleeptime
    case Outpw => p.power
  }

  /** True iff the primitive reports success for call `c`. */
  predicate Succeeds(o: Oracle, c: Call)
  {
    o(c) == 0
  }

  /** True iff every call of `cs` would succeed. */
  predicate AllSucceed(o: Oracle, cs: seq<Call>)
  {
    forall i :: 0 <= i < |cs| ==> Succeeds(o, cs[i])
  }
}
