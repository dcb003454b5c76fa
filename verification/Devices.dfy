/** Plans, their policies and the device record a node keeps (internal/model). */
module Devices {
  import opened Options

  type DeviceId = string

  /** Node-side instants, in seconds. */
  type Time = int

  /** A plan name; names outside the catalogue have no policy. */
  datatype Plan = Trial | Lite | Plus | Ultra | Unknown(name: string)

  datatype Policy = Policy(upBps: int, downBps: int, quotaBytes: int, throttleBps: int, priority: nat, p2p: bool)

  function PolicyOf(p: Plan): Option<Policy>
  {
    match p
    case Trial => Some(Policy(30_000_000, 30_000_000, 20_000_000_000, 0, 1, false))
    case Lite => Some(Policy(50_000_000, 50_000_000, 150_000_000_000, 5_000_000, 1, false))
    case Plus => Some(Policy(200_000_000, 200_000_000, 600_000_000_000, 10_000_000, 2, true))
    case Ultra => Some(Policy(0, 0, 2_000_000_000_000, 20_000_000, 3, true))
    case Unknown(_) => None
  }

  datatype Override = Override(upBps: int, downBps: int, p2p: bool, expires: Time)

  const NO_OVERRIDE := Override(0, 0, false, 0)

  datatype Device = Device(
    id: DeviceId,
    credentialHash: string,
    plan: Plan,
    active: bool,
    subscriptionEnds: Time,
    periodEnds: Time,
    quotaBytes: int,
    usedBytes: int,
    leaseBytes: int,
    leaseExpires: Time,
    override_: Override)
}
