/** Identities, messages and result types shared by every part of the model. */
module Base {
  type DeviceId = nat
  type ConnId = nat
  type DashId = nat
  type CommandId = nat

  /** Instants and durations of the one clock behind both NOW() and time.Now(), in nanoseconds. */
  type Time = nat

  const SECOND: Time := 1_000_000_000
  const MINUTE: Time := 60 * SECOND

  /** The background worker's period and thresholds, as the server starts it. */
  const WORKER_PERIOD: Time := 1 * MINUTE
  const OFFLINE_AFTER: Time := 2 * MINUTE
  const COMMAND_TIMEOUT: Time := 60 * SECOND

  datatype Option<+T> = None | Some(value: T)

  datatype Result<+T, +E> = Ok(value: T) | Err(error: E)

  /** What the server queues for a device; payloads other than a command's identity stay abstract. */
  datatype Msg =
    | Ack
    | Ping
    | StartMirror
    | StopMirror
    | Command(id: CommandId)
    | Other(payload: nat)
}
