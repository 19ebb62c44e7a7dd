/**
 * What the room client does to the outside world, as entries of an action
 * log: frames sent on the socket, events dispatched to its listeners, and
 * the calls it makes on the peer connection, the socket and the audio graph.
 */
module Session {
  import opened Common
  import opened Browser
  import opened RoomTypes
  import opened Signal

  /** Why a client operation threw. */
  datatype ClientError =
    | ConnectFailed      // the socket reported an error before opening
    | NotInitialized     // startCall found no open socket after init
    | MediaUnavailable   // no getUserMedia of any shape in this browser
    | MediaRejected      // getUserMedia refused (permission, device, context)

  /** The detail of an `error` event: a server text or a caught exception. */
  datatype ErrorDetail = Text(message: string) | Thrown(error: ClientError)

  /** The CustomEvents the client dispatches. */
  datatype ClientEvent =
    | RoomStateEvent(roomState: RoomState)
    | RoomFullEvent(message: string)
    | StatusEvent(message: string)
    | ErrorEvent(detail: ErrorDetail)
    | LocalStreamEvent(stream: Stream)
    | RemoteStreamEvent(stream: Stream)
    | ConnectionStateEvent(state: Option<ConnectionState>)
    | EndCallEvent
    | PeerLeftEvent

  /**
   * One observable step. `OfferCreated` and `AnswerCreated` also record the
   * ids of the tracks the peer connection was sending at that moment, which
   * the generated description covers.
   */
  datatype Action =
    | SocketCreated(socketId: nat, url: string)
    | SocketClosed(socketId: nat)
    | Sent(message: SignalMessage)
    | Emitted(event: ClientEvent)
    | PeerCreated
    | PeerClosed
    | OfferCreated(offer: Sdp, offeredTracks: set<TrackId>)
    | AnswerCreated(answer: Sdp, answeredTracks: set<TrackId>)
    | LocalDescriptionSet(sdp: Sdp)
    | RemoteDescriptionSet(sdp: Sdp)
    | CandidateAdded(candidate: IceCandidateInit)
    | AudioContextClosed(audioContext: Handle)
    | IntervalCleared(interval: Option<int>)
}
