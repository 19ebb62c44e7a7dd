/** The shared room types (src/shared/types/p2p-room.ts). */
module RoomTypes {
  import opened Common
  import opened Browser

  /** Last room state pushed by the server. */
  datatype RoomState = RoomState(participants: int, capacity: int)

  /** TP2pRoomStatus: the peer-connection states plus the room's own statuses. */
  datatype Status =
    | Peer(state: ConnectionState)
    | RoomFull
    | WaitingForPeer

  /** The status string the page shows when no label applies. */
  function StatusText(s: Status): string {
    match s
    case Peer(New) => "new"
    case Peer(Connecting) => "connecting"
    case Peer(Connected) => "connected"
    case Peer(Disconnected) => "disconnected"
    case Peer(Failed) => "failed"
    case Peer(Closed) => "closed"
    case RoomFull => "room-full"
    case WaitingForPeer => "waiting-for-peer"
  }

  /** TP2pRoomUiState. */
  datatype UiState = UiState(
    status: Status,
    isJoining: bool,
    isRoomJoined: bool,
    hasRemoteParticipant: bool,
    isLocalMediaReady: bool,
    isMicrophoneEnabled: bool,
    isCameraEnabled: bool,
    roomState: RoomState,
    errorMessage: Option<string>)
}
