/**
 * processSignalMessage (webrtc-room-client-signal-processor.ts): one decoded
 * signalling message runs exactly one branch, each branch calling into the
 * client through its context. The context is the client itself here, and
 * the catch around the call in the client's init (handleSignalMessage) is
 * HandleSignalMessage. `generated` stands for the description the peer
 * connection generates: the offer of a `startOffer`, the answer of an `offer`.
 */
module SignalProcessor {
  import opened Common
  import opened Browser
  import opened RoomTypes
  import opened Signal
  import opened Session
  import LocalMedia
  import opened RoomClient

  /** The defaults of the `roomFull` and `error` events when the server sends no text. */
  const RoomFullDefault: string := "Room is full"
  const SignalingErrorDefault: string := "Signaling server error"

  /** `message ?? fallback`: the server's text, or the event's default. */
  function TextOr(message: Option<string>, fallback: string): (r: string)
    ensures message.Some? ==> r == message.value
    ensures message.None? ==> r == fallback
  {
    message.GetOr(fallback)
  }

  /** The event a message that only informs the page dispatches, if it is one. */
  function Notification(msg: SignalMessage): (r: Option<ClientEvent>)
    ensures r.Some? <==> msg.RoomStateUpdate? || msg.RoomFull? || msg.Status? || msg.Error?
  {
    match msg
    case RoomStateUpdate(participants, capacity) => Some(RoomStateEvent(RoomState(participants, capacity)))
    case RoomFull(message) => Some(RoomFullEvent(TextOr(message, RoomFullDefault)))
    case Status(text) => Some(StatusEvent(text))
    case Error(message) => Some(ErrorEvent(Text(TextOr(message, SignalingErrorDefault))))
    case _ => None
  }

  /** A room-state message forwards its counts as they are. */
  lemma RoomStateForwarded(participants: int, capacity: int)
    ensures Notification(RoomStateUpdate(participants, capacity)) == Some(RoomStateEvent(RoomState(participants, capacity)))
  {
  }

  /** Without a text, `roomFull` and `error` fall back to their defaults; with one, the text is kept. */
  lemma NotificationDefaults(text: string)
    ensures Notification(SignalMessage.RoomFull(None)) == Some(RoomFullEvent("Room is full"))
    ensures Notification(SignalMessage.Error(None)) == Some(ErrorEvent(Text("Signaling server error")))
    ensures Notification(SignalMessage.RoomFull(Some(text))) == Some(RoomFullEvent(text))
    ensures Notification(SignalMessage.Error(Some(text))) == Some(ErrorEvent(Text(text)))
  {
  }

  /**
   * The offer branch once the peer connection and the local media exist:
   * attach the local tracks, set the offer as the remote description, create
   * the answer (covering every sender's track), set it as the local
   * description and send exactly one `answer`.
   */
  method AnswerOffer(client: WebrtcRoomClient, offer: Sdp, answer: Sdp)
    requires client.Valid() && client.peerConnection.Some?
    modifies client
    ensures client.Valid()
    ensures client.peerConnection.Some?
    ensures client.peerConnection.value.remoteDescription == Some(offer)
    ensures client.peerConnection.value.localDescription == Some(answer)
    ensures old(client.localOutgoingStream).Some? ==>
      forall x :: x in old(client.localOutgoingStream).value ==> x in SenderTrackIds(client.peerConnection.value.senders)
    ensures client.log == old(client.log)
      + [RemoteDescriptionSet(offer), AnswerCreated(answer, SenderTrackIds(client.peerConnection.value.senders)),
         LocalDescriptionSet(answer)]
      + SendEffect(client.webSocket, Answer(answer))
    ensures client.localStream == old(client.localStream) && client.localOutgoingStream == old(client.localOutgoingStream)
    ensures client.remoteStream == old(client.remoteStream) && client.logIntervalMs == old(client.logIntervalMs)
    ensures client.audioContext == old(client.audioContext) && client.outgoingGainNode == old(client.outgoingGainNode)
    ensures client.SocketUnchanged()
  {
    client.AttachExistingLocalTracksToPeerConnection();
    var pc := client.peerConnection.value;
    client.peerConnection := Some(pc.(remoteDescription := Some(offer)));
    client.log := client.log + [RemoteDescriptionSet(offer)];
    client.log := client.log + [AnswerCreated(answer, SenderTrackIds(pc.senders))];
    client.peerConnection := Some(pc.(remoteDescription := Some(offer), localDescription := Some(answer)));
    client.log := client.log + [LocalDescriptionSet(answer)];
    client.SendSignalMessage(Answer(answer));
  }

  /**
   * The offer branch: make sure a peer connection exists, capture media only
   * if there is none (a capture that fails ends the branch before anything
   * is sent), then answer the offer.
   */
  method HandleOffer(client: WebrtcRoomClient, offer: Sdp, env: LocalMedia.MediaEnv, answer: Sdp)
    returns (r: Outcome<ClientError>)
    requires client.Valid()
    requires LocalMedia.EnvFresh(client.tracks, env)
    modifies client
    ensures client.Valid()
    ensures client.peerConnection.Some?
    ensures client.MediaPrepared(env, r)
    ensures r.Pass? ==> client.localStream.Some?
    ensures r.Fail? ==> client.log == old(client.log) + PeerCreation(old(client.peerConnection))
    ensures r.Pass? ==>
      && client.peerConnection.value.remoteDescription == Some(offer)
      && client.peerConnection.value.localDescription == Some(answer)
      && client.log == old(client.log) + PeerCreation(old(client.peerConnection))
                       + CaptureEvent(old(client.localStream), client.localStream)
                       + [RemoteDescriptionSet(offer),
                          AnswerCreated(answer, SenderTrackIds(client.peerConnection.value.senders)),
                          LocalDescriptionSet(answer)]
                       + SendEffect(client.webSocket, Answer(answer))
      && (client.localOutgoingStream.Some? ==>
            forall x :: x in client.localOutgoingStream.value ==> x in SenderTrackIds(client.peerConnection.value.senders))
    ensures client.remoteStream == old(client.remoteStream) && client.SocketUnchanged()
  {
    r := client.PrepareLocalMedia(env);
    if r.Fail? {
      return;
    }
    AnswerOffer(client, offer, answer);
  }

  /** The answer branch: `getPeerConnection()?.setRemoteDescription(answer)`. */
  method ApplyAnswer(client: WebrtcRoomClient, answer: Sdp)
    requires client.Valid()
    modifies client
    ensures client.Valid()
    ensures old(client.peerConnection).None? ==> client.peerConnection.None? && client.log == old(client.log)
    ensures old(client.peerConnection).Some? ==>
      && client.peerConnection == Some(old(client.peerConnection).value.(remoteDescription := Some(answer)))
      && client.log == old(client.log) + [RemoteDescriptionSet(answer)]
    ensures client.localStream == old(client.localStream) && client.localOutgoingStream == old(client.localOutgoingStream)
    ensures client.remoteStream == old(client.remoteStream) && client.logIntervalMs == old(client.logIntervalMs)
    ensures client.audioContext == old(client.audioContext) && client.outgoingGainNode == old(client.outgoingGainNode)
    ensures client.tracks == old(client.tracks) && client.SocketUnchanged()
  {
    if client.peerConnection.Some? {
      client.peerConnection := Some(client.peerConnection.value.(remoteDescription := Some(answer)));
      client.log := client.log + [RemoteDescriptionSet(answer)];
    }
  }

  /** The candidate branch: `getPeerConnection()?.addIceCandidate(candidate)`. */
  method AddRemoteCandidate(client: WebrtcRoomClient, candidate: IceCandidateInit)
    requires client.Valid()
    modifies client
    ensures client.Valid()
    ensures old(client.peerConnection).None? ==> client.peerConnection.None? && client.log == old(client.log)
    ensures old(client.peerConnection).Some? ==>
      && client.peerConnection == Some(old(client.peerConnection).value.(
           remoteCandidates := old(client.peerConnection).value.remoteCandidates + [candidate]))
      && client.log == old(client.log) + [CandidateAdded(candidate)]
    ensures client.localStream == old(client.localStream) && client.localOutgoingStream == old(client.localOutgoingStream)
    ensures client.remoteStream == old(client.remoteStream) && client.logIntervalMs == old(client.logIntervalMs)
    ensures client.audioContext == old(client.audioContext) && client.outgoingGainNode == old(client.outgoingGainNode)
    ensures client.tracks == old(client.tracks) && client.SocketUnchanged()
  {
    if client.peerConnection.Some? {
      var pc := client.peerConnection.value;
      client.peerConnection := Some(pc.(remoteCandidates := pc.remoteCandidates + [candidate]));
      client.log := client.log + [CandidateAdded(candidate)];
    }
  }

  /**
   * processSignalMessage. Each message kind runs its own branch and no other;
   * only acquiring the local media can fail, so only `offer` and
   * `startOffer` can throw.
   */
  method ProcessSignalMessage(client: WebrtcRoomClient, msg: SignalMessage, env: LocalMedia.MediaEnv, generated: Sdp)
    returns (r: Outcome<ClientError>)
    requires client.Valid()
    requires LocalMedia.EnvFresh(client.tracks, env)
    modifies client
    ensures client.Valid()
    ensures r.Fail? ==> (msg.Offer? || msg.StartOffer?) && old(client.localStream).None?
    ensures |old(client.log)| <= |client.log| && client.log[..|old(client.log)|] == old(client.log)
    // Messages that only inform the page: one event, nothing else.
    ensures Notification(msg).Some? ==>
      && r.Pass?
      && client.log == old(client.log) + [Emitted(Notification(msg).value)]
      && client.MediaUnchanged() && client.SocketUnchanged()
    // hangup: the other side left; the local media stays.
    ensures msg.Hangup? ==>
      && r.Pass?
      && client.peerConnection.None?
      && client.tracks == old(client.tracks)
      && client.localStream == old(client.localStream) && client.localOutgoingStream == old(client.localOutgoingStream)
      && client.log == old(client.log) + [IntervalCleared(old(client.logIntervalMs))]
                       + (if old(client.peerConnection).Some? then [PeerClosed] else [])
                       + [Emitted(PeerLeftEvent)]
    // startOffer: the client's own offer, which ends with the offer being sent.
    ensures msg.StartOffer? || msg.Offer? ==>
      && client.peerConnection.Some?
      && client.MediaPrepared(env, r)
      && (r.Pass? ==> client.localStream.Some?)
      && (r.Fail? ==> client.log == old(client.log) + PeerCreation(old(client.peerConnection)))
    ensures msg.StartOffer? && r.Pass? ==>
      client.log == old(client.log) + PeerCreation(old(client.peerConnection))
                    + CaptureEvent(old(client.localStream), client.localStream)
                    + [OfferCreated(generated, SenderTrackIds(client.peerConnection.value.senders)), LocalDescriptionSet(generated)]
                    + SendEffect(client.webSocket, Offer(generated))
    // offer: connection, media if absent, attach, remote, answer, local, send.
    ensures msg.Offer? && r.Pass? ==>
      && client.peerConnection.value.remoteDescription == Some(msg.offer)
      && client.peerConnection.value.localDescription == Some(generated)
      && client.log == old(client.log) + PeerCreation(old(client.peerConnection))
                       + CaptureEvent(old(client.localStream), client.localStream)
                       + [RemoteDescriptionSet(msg.offer),
                          AnswerCreated(generated, SenderTrackIds(client.peerConnection.value.senders)),
                          LocalDescriptionSet(generated)]
                       + SendEffect(client.webSocket, Answer(generated))
      && (client.localOutgoingStream.Some? ==>
            forall x :: x in client.localOutgoingStream.value ==> x in SenderTrackIds(client.peerConnection.value.senders))
    // answer and candidate: applied to the existing connection; without one, nothing happens.
    ensures (msg.Answer? || msg.Candidate?) ==> r.Pass? && client.SocketUnchanged()
    ensures (msg.Answer? || msg.Candidate?) && old(client.peerConnection).None? ==>
      client.MediaUnchanged() && client.log == old(client.log)
    ensures msg.Answer? && old(client.peerConnection).Some? ==>
      && client.peerConnection == Some(old(client.peerConnection).value.(remoteDescription := Some(msg.answer)))
      && client.log == old(client.log) + [RemoteDescriptionSet(msg.answer)]
    ensures msg.Candidate? && old(client.peerConnection).Some? ==>
      && client.peerConnection == Some(old(client.peerConnection).value.(
           remoteCandidates := old(client.peerConnection).value.remoteCandidates + [msg.candidate]))
      && client.log == old(client.log) + [CandidateAdded(msg.candidate)]
    // ready, and any tag without a branch: no effect at all.
    ensures (msg.Ready? || msg.Unknown?) ==>
      r.Pass? && client.MediaUnchanged() && client.SocketUnchanged() && client.log == old(client.log)
    // Only answering an offer and sending one's own offer put a frame on the socket.
    ensures !(msg.Offer? || msg.StartOffer?) ==> forall i :: |old(client.log)| <= i < |client.log| ==> !client.log[i].Sent?
    ensures client.remoteStream == old(client.remoteStream)
  {
    r := Pass;
    match msg {
      case RoomStateUpdate(participants, capacity) =>
        client.Emit(RoomStateEvent(RoomState(participants, capacity)));
      case RoomFull(message) =>
        client.Emit(RoomFullEvent(TextOr(message, RoomFullDefault)));
      case Status(text) =>
        client.Emit(StatusEvent(text));
      case Error(message) =>
        client.Emit(ErrorEvent(Text(TextOr(message, SignalingErrorDefault))));
      case Hangup =>
        client.HandlePeerLeft();
      case StartOffer =>
        r := client.StartOffer(env, generated);
      case Offer(offer) =>
        r := HandleOffer(client, offer, env, generated);
      case Answer(answer) =>
        ApplyAnswer(client, answer);
      case Candidate(candidate) =>
        AddRemoteCandidate(client, candidate);
      case Ready =>
      case Unknown(_) =>
    }
  }

  /**
   * handleSignalMessage: process the message and turn a failure into an
   * `error` event carrying what was thrown, so nothing escapes the socket's
   * message listener. `failure` is what processing threw, if anything.
   */
  method HandleSignalMessage(client: WebrtcRoomClient, msg: SignalMessage, env: LocalMedia.MediaEnv, generated: Sdp)
    returns (ghost failure: Option<ClientError>)
    requires client.Valid()
    requires LocalMedia.EnvFresh(client.tracks, env)
    modifies client
    ensures client.Valid()
    ensures failure.Some? ==> (msg.Offer? || msg.StartOffer?) && old(client.localStream).None?
    ensures failure.Some? ==> |client.log| > |old(client.log)| && client.log[|client.log| - 1] == Emitted(ErrorEvent(Thrown(failure.value)))
    ensures (msg.Offer? || msg.StartOffer?) && old(client.localStream).Some? ==> failure.None?
    ensures Notification(msg).Some? ==> client.log == old(client.log) + [Emitted(Notification(msg).value)]
    ensures (msg.Ready? || msg.Unknown?) ==> client.log == old(client.log)
  {
    var r := ProcessSignalMessage(client, msg, env, generated);
    if r.Fail? {
      client.Emit(ErrorEvent(Thrown(r.error)));
      failure := Some(r.error);
    } else {
      failure := None;
    }
  }
}
