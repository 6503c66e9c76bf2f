/**
 * The wire vocabulary shared by the room server and its clients (message.ts):
 * the hand-raise timeout and the two tagged unions of messages.
 * JSON encoding is not modelled; a message is its parsed value.
 */
module Messages {

  /** How long a raised hand stays raised, in milliseconds (message.ts:1). */
  const RaiseHandTimeoutMilliseconds: int := 5 * 1000

  /** `{ type: "raise-hand" } | { type: "lower-hand" }`: what a client may ask for. */
  datatype ClientMessage = RaiseHand | LowerHand

  /**
   * The token slot: who raised their hand and when, on the server's clock.
   * A timestamp of 0 is the "lowered" value, not an acquisition at the epoch.
   */
  datatype HandState = HandState(username: string, timestampMilliseconds: int)

  /** A member of the room as the server reports it: its display name only. */
  datatype User = User(username: string)

  /**
   * `{ type: "user-list", payload: { users } }` or
   * `{ type: "broadcast-raise-hand", payload: handState }`.
   */
  datatype ServerMessage =
    | UserList(users: seq<User>)
    | BroadcastRaiseHand(payload: HandState)

  /** The `type` discriminant a client message carries on the wire. */
  function ClientMessageType(m: ClientMessage): string
  {
    match m
    case RaiseHand => "raise-hand"
    case LowerHand => "lower-hand"
  }

  /** The `type` discriminant a server message carries on the wire. */
  function ServerMessageType(m: ServerMessage): string
  {
    match m
    case UserList(_) => "user-list"
    case BroadcastRaiseHand(_) => "broadcast-raise-hand"
  }

  /** The timeout constant is five seconds exactly. */
  lemma TimeoutIsFiveSeconds()
    ensures RaiseHandTimeoutMilliseconds == 5000
  {
  }

  /** Distinct client messages carry distinct tags, so a receiver can tell them apart. */
  lemma ClientMessageTypeInjective(a: ClientMessage, b: ClientMessage)
    ensures ClientMessageType(a) == ClientMessageType(b) <==> a == b
  {
  }

  /** Distinct kinds of server message carry distinct tags. */
  lemma ServerMessageTypeDiscriminates(a: ServerMessage, b: ServerMessage)
    ensures ServerMessageType(a) == ServerMessageType(b) <==> a.UserList? == b.UserList?
  {
  }
}
