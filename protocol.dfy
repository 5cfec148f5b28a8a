/**
 * The watch-party wire protocol: one JSON object per websocket message, its
 * `type` field selecting the variant. JSON encoding is not modelled; each
 * message is a datatype value, and a field the sender left out is `None`.
 */
module Protocol {
  import opened Wrappers
  import opened Rooms

  /** Client to server. */
  datatype ClientMsg =
    | PingMsg
    | JoinMsg(sessionId: Option<string>, username: Option<string>)
    | SyncMsg(currentTime: Option<Seconds>, isPlaying: Option<bool>)
    | ChatMsg(message: Option<string>)
    | OtherClientMsg(kind: string)   // any other `type`

  /** Server to client. */
  datatype ServerMsg =
    | SyncState(currentTime: Seconds, isPlaying: bool)    // "sync"
    | Role(isHost: bool, videoUrl: string)                // "role"
    | UserJoined(username: string)                        // "user_joined"
    | UserLeft(username: string)                          // "user_left"
    | Chat(message: string, username: string)             // "chat"
    | RoomClosed(message: string)                         // "room_closed"
    | Error(message: string)                              // "error"
    | Pong                                                // "pong"
    | OtherServerMsg(kind: string)                        // any other `type`

  const RoomGoneText := "Room no longer exists"
  const NotHostText := "Only the host can control playback"
  const HostEndedText := "The host has ended the watch party."
  /** The username the server uses until a `join` says otherwise. */
  const DefaultUsername := "Anonymous"
}
