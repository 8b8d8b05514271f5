/** Value types shared by the notification package: the wire integer widths,
    the urgency byte, durations, the reserved constants, and the opaque stand-ins
    for Go function values and D-Bus variants. */
module Types {

  /** D-Bus `u`: notification ids and close reasons. */
  newtype uint32 = x: int | 0 <= x < 0x1_0000_0000

  /** `type Urgency byte`: any byte value can be stored, three are named. */
  newtype Urgency = x: int | 0 <= x < 0x100

  /** `time.Duration`, a signed 64-bit count of nanoseconds. */
  newtype Duration = x: int | -0x8000_0000_0000_0000 <= x < 0x8000_0000_0000_0000

  const UrgencyLow: Urgency := 0
  const UrgencyNormal: Urgency := 1
  const UrgencyCritical: Urgency := 2

  /** The notification never expires. */
  const ExpiresNever: Duration := 0
  /** The server's default expiration applies. */
  const ExpiresDefault: Duration := -1000000

  /** Reason codes of the NotificationClosed signal; the package passes them on uninterpreted. */
  const ReasonExpired: uint32 := 1
  const ReasonDismissed: uint32 := 2
  const ReasonClosed: uint32 := 3
  const ReasonUndefined: uint32 := 4

  /** The hint key that Notify always overwrites from the urgency field. */
  const UrgencyKey: string := "urgency"

  datatype Option<T> = None | Some(value: T)

  /** A hint value as handed to the bus. Notify stores the urgency as a
      byte variant; every other value a caller passes is opaque here. */
  datatype Variant = UrgencyByte(level: Urgency) | Opaque(token: nat)

  /** A Go `func()` registered for an action key, named by a token. */
  datatype ActionHandler = ActionHandler(token: nat)

  /** A Go `func(uint32)` registered as the closed handler, named by a token. */
  datatype ClosedHandler = ClosedHandler(token: nat)

  /** An entry of a notification's actions map: display name and handler. */
  datatype Action = Action(name: string, handler: ActionHandler)

  /** An error reported by the bus transport; its content is not interpreted. */
  datatype CallError = CallError(token: nat)

  /** Errors the package itself returns. `Wrapped` is `fmt.Errorf("notification: %w", e)`. */
  datatype Error =
    | NotInitialized
    | SessionBusUnavailable(cause: CallError)
    | Wrapped(cause: CallError)
}
