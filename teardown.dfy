/**
 * Tearing down a call session (webrtc-room-client-teardown.ts): stop the
 * stats timer, stop the local tracks unless they are preserved, stop the
 * remote tracks, close the peer connection, tell the other side, and
 * dispatch the client event.
 */
module Teardown {
  import opened Common
  import opened Browser
  import opened Signal
  import opened Session
  import Media

  /** The client event a teardown dispatches, if any. */
  datatype TeardownEvent = EndCall | PeerLeft

  function EventOf(e: TeardownEvent): ClientEvent {
    match e
    case EndCall => EndCallEvent
    case PeerLeft => PeerLeftEvent
  }

  /** What the client hands to the teardown: its flags and the resources it holds. */
  datatype TeardownParams = TeardownParams(
    notifyRemote: bool,
    eventType: Option<TeardownEvent>,
    preserveLocalMedia: bool,
    logIntervalMs: Option<int>,
    webSocket: Option<WebSocket>,
    peerConnection: Option<PeerState>,
    localStream: Option<Stream>,
    localOutgoingStream: Option<Stream>,
    remoteStream: Option<Stream>,
    audioContext: Option<Handle>,
    outgoingGainNode: Option<Handle>)

  /** The resources the client keeps afterwards. */
  datatype TeardownResult = TeardownResult(
    peerConnection: Option<PeerState>,
    localStream: Option<Stream>,
    localOutgoingStream: Option<Stream>,
    remoteStream: Option<Stream>,
    audioContext: Option<Handle>,
    outgoingGainNode: Option<Handle>)

  function StreamIds(s: Option<Stream>): set<TrackId> {
    if s.Some? then Elems(s.value) else {}
  }

  predicate ParamsInRegistry(tracks: Tracks, p: TeardownParams) {
    && (p.localStream.Some? ==> InRegistry(tracks, p.localStream.value))
    && (p.localOutgoingStream.Some? ==> InRegistry(tracks, p.localOutgoingStream.value))
    && (p.remoteStream.Some? ==> InRegistry(tracks, p.remoteStream.value))
  }

  /** The tracks a teardown stops: the remote ones, and the local ones unless preserved. */
  function StopTargets(p: TeardownParams): set<TrackId> {
    (if p.preserveLocalMedia then {} else StreamIds(p.localOutgoingStream) + StreamIds(p.localStream))
    + StreamIds(p.remoteStream)
  }

  /** The calls a teardown makes on the outside world, in order. */
  function TeardownEffects(p: TeardownParams): seq<Action> {
    [IntervalCleared(p.logIntervalMs)]
    + (if !p.preserveLocalMedia && p.audioContext.Some? then [AudioContextClosed(p.audioContext.value)] else [])
    + (if p.peerConnection.Some? then [PeerClosed] else [])
    + (if p.notifyRemote && p.webSocket.Some? && p.webSocket.value.readyState == SocketOpen then [Sent(Hangup)] else [])
    + (if p.eventType.Some? then [Emitted(EventOf(p.eventType.value))] else [])
  }

  /** The resources left: no peer connection and no remote stream; local media only if preserved. */
  function TeardownOutcome(p: TeardownParams): TeardownResult {
    if p.preserveLocalMedia then
      TeardownResult(None, p.localStream, p.localOutgoingStream, None, p.audioContext, p.outgoingGainNode)
    else
      TeardownResult(None, None, None, None, None, None)
  }

  /**
   * The three stops of a teardown, sharing one set of stopped ids: the
   * outgoing and the capture stream unless local media is preserved, then
   * the remote stream. Every track of the targets is stopped exactly once.
   */
  method StopSessionTracks(p: TeardownParams, tracks: Tracks) returns (tracks': Tracks, stopped: set<TrackId>)
    requires ParamsInRegistry(tracks, p)
    ensures tracks' == Media.StopAll(tracks, StopTargets(p))
    ensures stopped == StopTargets(p)
  {
    var stoppedTrackIds: Option<set<TrackId>> := Some({});
    tracks' := tracks;
    Media.StopAllNothing(tracks);
    if !p.preserveLocalMedia {
      tracks', stoppedTrackIds := Media.StopStreamTracks(tracks', p.localOutgoingStream, stoppedTrackIds);
      assert stoppedTrackIds.value == StreamIds(p.localOutgoingStream);
      Media.StopAllCompose(tracks, {}, StreamIds(p.localOutgoingStream));
      assert tracks' == Media.StopAll(tracks, StreamIds(p.localOutgoingStream));
      tracks', stoppedTrackIds := Media.StopStreamTracks(tracks', p.localStream, stoppedTrackIds);
      Media.StopAllCompose(tracks, StreamIds(p.localOutgoingStream), StreamIds(p.localStream));
      assert stoppedTrackIds.value == StreamIds(p.localOutgoingStream) + StreamIds(p.localStream);
    }
    ghost var localTargets := if p.preserveLocalMedia then {} else StreamIds(p.localOutgoingStream) + StreamIds(p.localStream);
    assert stoppedTrackIds == Some(localTargets);
    assert tracks' == Media.StopAll(tracks, localTargets);

    tracks', stoppedTrackIds := Media.StopStreamTracks(tracks', p.remoteStream, stoppedTrackIds);
    Media.StopAllCompose(tracks, localTargets, StreamIds(p.remoteStream));
    assert localTargets + StreamIds(p.remoteStream) == StopTargets(p);
    stopped := stoppedTrackIds.value;
  }

  /**
   * teardownCallSessionResources: clear the stats timer, stop the tracks
   * (each once, however many streams list it), close the audio context
   * unless local media is preserved, close the peer connection, send a
   * hangup when asked to and the socket is open, and dispatch the event.
   */
  method TeardownCallSessionResources(p: TeardownParams, tracks: Tracks)
    returns (r: TeardownResult, tracks': Tracks, effects: seq<Action>)
    requires ParamsInRegistry(tracks, p)
    ensures tracks' == Media.StopAll(tracks, StopTargets(p))
    ensures effects == TeardownEffects(p)
    ensures r == TeardownOutcome(p)
  {
    effects := [IntervalCleared(p.logIntervalMs)];
    var nextAudioContext := p.audioContext;
    var nextLocalStream := p.localStream;
    var nextLocalOutgoingStream := p.localOutgoingStream;
    var stopped;
    tracks', stopped := StopSessionTracks(p, tracks);
    if !p.preserveLocalMedia {
      if nextAudioContext.Some? {
        effects := effects + [AudioContextClosed(nextAudioContext.value)];
        nextAudioContext := None;
      }
      nextLocalStream := None;
      nextLocalOutgoingStream := None;
    }
    if p.peerConnection.Some? {
      effects := effects + [PeerClosed];
    }
    if p.notifyRemote && p.webSocket.Some? && p.webSocket.value.readyState == SocketOpen {
      effects := effects + [Sent(Hangup)];
    }
    if p.eventType.Some? {
      effects := effects + [Emitted(EventOf(p.eventType.value))];
    }
    r := TeardownResult(None, nextLocalStream, nextLocalOutgoingStream, None, nextAudioContext,
                        if p.preserveLocalMedia then p.outgoingGainNode else None);
  }

  /** The parameters of a later teardown, over what an earlier one left. */
  function Resume(p: TeardownParams, r: TeardownResult): TeardownParams {
    p.(peerConnection := r.peerConnection, localStream := r.localStream,
       localOutgoingStream := r.localOutgoingStream, remoteStream := r.remoteStream,
       audioContext := r.audioContext, outgoingGainNode := r.outgoingGainNode)
  }

  /**
   * A teardown repeated over what the first one left stops no track, closes
   * neither the audio context nor a peer connection, and leaves the same
   * resources: only the timer clear, the hangup and the event can recur.
   */
  lemma TeardownSettles(p: TeardownParams, notifyRemote: bool, eventType: Option<TeardownEvent>,
                        webSocket: Option<WebSocket>, logIntervalMs: Option<int>)
    ensures var q := Resume(p.(notifyRemote := notifyRemote, eventType := eventType, webSocket := webSocket,
                               logIntervalMs := logIntervalMs), TeardownOutcome(p));
      && StopTargets(q) == {}
      && TeardownOutcome(q) == TeardownOutcome(p)
      && PeerClosed !in TeardownEffects(q)
      && (forall h :: AudioContextClosed(h) !in TeardownEffects(q))
  {
  }

  /** Preserving local media stops only the remote tracks and keeps the audio graph. */
  lemma PreserveKeepsLocalMedia(p: TeardownParams)
    requires p.preserveLocalMedia
    ensures StopTargets(p) == StreamIds(p.remoteStream)
    ensures var r := TeardownOutcome(p);
      r.localStream == p.localStream && r.localOutgoingStream == p.localOutgoingStream
      && r.audioContext == p.audioContext && r.outgoingGainNode == p.outgoingGainNode
    ensures forall h :: AudioContextClosed(h) !in TeardownEffects(p)
  {
  }
}
