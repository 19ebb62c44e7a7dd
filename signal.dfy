/** The signalling message union exchanged with the server (webrtc-room-client-signal.ts). */
module Signal {
  import opened Common
  import opened Browser

  /**
   * One decoded signalling message, by its `type` tag. `Unknown` stands for a
   * frame whose tag is none of the declared ones: the socket layer parses any
   * JSON object, so such frames reach the dispatcher too.
   */
  datatype SignalMessage =
    | Offer(offer: Sdp)
    | Answer(answer: Sdp)
    | Candidate(candidate: IceCandidateInit)
    | StartOffer
    | Ready
    | Hangup
    | Status(text: string)
    | RoomStateUpdate(participants: int, capacity: int)
    | RoomFull(message: Option<string>)
    | Error(message: Option<string>)
    | Unknown(tag: string)
}
