/**
 * What travels over a Socket.IO connection between the chat server and its
 * clients: the server-to-client events and the resumption cursor a client
 * presents in its handshake.
 */
module Protocol {
  import opened MessageSchema

  /**
   * A server-to-client event. A chat event is emitted under the name its kind
   * gives it and carries the tuple (content, id, user, createdAt).
   */
  datatype Event =
    | ChatEvent(kind: Kind, content: string, id: nat, user: string, createdAt: nat)
    | ErrorEvent(message: string)
    | CallRoomCreated(roomUrl: string, roomName: string, username: string)
    | CallNotification(roomUrl: string, roomName: string, username: string)

  /** The Socket.IO event name each event is emitted under. */
  function EventName(e: Event): string {
    match e
    case ChatEvent(Text, _, _, _, _) => "chat message"
    case ChatEvent(Image, _, _, _, _) => "image message"
    case ChatEvent(Audio, _, _, _, _) => "audio message"
    case ErrorEvent(_) => "error"
    case CallRoomCreated(_, _, _) => "call-room-created"
    case CallNotification(_, _, _) => "call-notification"
  }

  /**
   * The handshake's `auth.serverOffset`, classified the way the recovery query
   * reads it: Unset is null or undefined, Falsy is 0 or the empty string, Cursor
   * is a truthy value that `ObjectId.isValid` accepts (standing for the id it
   * names), Malformed is any other truthy value.
   */
  datatype Offset = Unset | Falsy | Cursor(id: nat) | Malformed
}
