/**
 * WebrtcRoomClient (webrtc-room-client.ts): the object the page drives. It
 * owns the signalling socket, the peer connection, the capture stream, the
 * outgoing stream and the audio graph, and it dispatches events to the page.
 * Each asynchronous method is modelled as atomic steps; `initPending` stands
 * for the pending `initPromise`, and what the browser answers (whether the
 * socket opened, the media the user granted, the descriptions the peer
 * connection generates) is passed in as parameters.
 */
module RoomClient {
  import opened Common
  import opened Browser
  import opened Signal
  import opened Session
  import opened TrackControls
  import opened Teardown
  import Media
  import LocalMedia
  import WebSocketUrl

  // ---------------------------------------------------------------------------
  // The client's invariant, on values

  /** Every track of the stream exists and has never been stopped. */
  predicate Live(tracks: Tracks, s: Option<Stream>) {
    s.Some? ==> forall i :: 0 <= i < |s.value| ==> s.value[i] in tracks && tracks[s.value[i]].stopCount == 0
  }

  /**
   * What holds between the client's media fields at every step: the streams
   * hold live tracks, every sender's track exists, no track was stopped more
   * than once, the audio context and the gain node come and go together,
   * and the remote stream is never set (the source only ever clears it).
   */
  predicate MediaInvariant(tracks: Tracks, peerConnection: Option<PeerState>, localStream: Option<Stream>,
                           localOutgoingStream: Option<Stream>, remoteStream: Option<Stream>,
                           audioContext: Option<Handle>, outgoingGainNode: Option<Handle>)
  {
    && Live(tracks, localStream)
    && Live(tracks, localOutgoingStream)
    && remoteStream.None?
    && (peerConnection.Some? ==> SendersInRegistry(tracks, peerConnection.value.senders))
    && (outgoingGainNode.Some? <==> audioContext.Some?)
    && (forall id :: id in tracks ==> tracks[id].stopCount <= 1)
  }

  lemma LiveInRegistry(tracks: Tracks, localStream: Option<Stream>, localOutgoingStream: Option<Stream>)
    requires Live(tracks, localStream) && Live(tracks, localOutgoingStream)
    ensures StreamsInRegistry(tracks, localStream, localOutgoingStream)
  {
  }

  /** A frame sent on the socket: only an open socket carries it. */
  function SendEffect(webSocket: Option<WebSocket>, message: SignalMessage): (r: seq<Action>)
    ensures |r| <= 1
    ensures r != [] <==> webSocket.Some? && webSocket.value.readyState == SocketOpen
    ensures r != [] ==> r[0] == Sent(message)
  {
    if webSocket.Some? && webSocket.value.readyState == SocketOpen then [Sent(message)] else []
  }

  /** How a call of init() starts. */
  datatype InitStart = AlreadyOpen | AwaitingPending | Opening

  // ---------------------------------------------------------------------------
  // Lemmas the client's steps rely on

  /** Enabling or disabling tracks never stops one nor changes a kind. */
  lemma EnableAllKeepsLive(tracks: Tracks, ids: set<TrackId>, enabled: bool, s: Option<Stream>)
    requires Live(tracks, s)
    ensures Live(EnableAll(tracks, ids, enabled), s)
  {
  }

  /** Enabling the tracks of a kind leaves which tracks are of that kind as it was. */
  lemma TargetsAfterEnable(tracks: Tracks, ids: set<TrackId>, enabled: bool, kind: TrackKind, s: Option<Stream>)
    ensures Targets(EnableAll(tracks, ids, enabled), kind, s) == Targets(tracks, kind, s)
  {
  }

  /**
   * After every track of `kind` in both streams was set to `enabled`, the
   * primary track of that kind reads `enabled`: the setter returns what was
   * asked for.
   */
  lemma ReadBackAfterEnable(kind: TrackKind, enabled: bool, tracks: Tracks,
                            localStream: Option<Stream>, localOutgoingStream: Option<Stream>)
    requires StreamsInRegistry(tracks, localStream, localOutgoingStream)
    requires Targets(tracks, kind, localStream) + Targets(tracks, kind, localOutgoingStream) != {}
    ensures var all := Targets(tracks, kind, localStream) + Targets(tracks, kind, localOutgoingStream);
      var after := EnableAll(tracks, all, enabled);
      StreamsInRegistry(after, localStream, localOutgoingStream)
      && GetPrimaryTrackEnabled(kind, after, localStream, localOutgoingStream) == Some(enabled)
  {
    var all := Targets(tracks, kind, localStream) + Targets(tracks, kind, localOutgoingStream);
    var after := EnableAll(tracks, all, enabled);
    TargetsAfterEnable(tracks, all, enabled, kind, localStream);
    TargetsAfterEnable(tracks, all, enabled, kind, localOutgoingStream);
    var r := GetPrimaryTrackEnabled(kind, after, localStream, localOutgoingStream);
    var x :| x in all && after[x].enabled == r.value;
  }

  /** Enabling nothing changes nothing. */
  lemma EnableAllNothing(tracks: Tracks, enabled: bool)
    ensures EnableAll(tracks, {}, enabled) == tracks
  {
  }

  /** Attaching adds senders only for outgoing tracks, which exist. */
  lemma AttachKeepsSendersInRegistry(tracks: Tracks, pc: PeerState, outgoing: Stream)
    requires SendersInRegistry(tracks, pc.senders) && InRegistry(tracks, outgoing)
    ensures SendersInRegistry(tracks, pc.senders + NewSenders(Unattached(outgoing, AttachedTrackIds(pc.senders))))
  {
    var added := Unattached(outgoing, AttachedTrackIds(pc.senders));
    var senders := pc.senders + NewSenders(added);
    forall i | 0 <= i < |senders| && senders[i].track.Some?
      ensures senders[i].track.value in tracks
    {
      if i >= |pc.senders| {
        var x := added[i - |pc.senders|];
        assert senders[i].track.value == x;
        UnattachedMembers(outgoing, AttachedTrackIds(pc.senders), x);
      }
    }
  }

  /** The quality profile keeps every sender's track and every track's stop count. */
  lemma ProfileKeepsInvariant(tracks: Tracks, senders: seq<Sender>, profiled: seq<Sender>, s: Option<Stream>)
    requires SendersInRegistry(tracks, senders)
    requires |profiled| == |senders| && forall i :: 0 <= i < |senders| ==> profiled[i] == ProfiledSender(tracks, senders[i])
    requires Live(tracks, s)
    ensures SendersInRegistry(HintVideoSenders(tracks, senders), profiled)
    ensures SenderTrackIds(profiled) == SenderTrackIds(senders)
    ensures Live(HintVideoSenders(tracks, senders), s)
    ensures forall id :: id in tracks ==> HintVideoSenders(tracks, senders)[id].stopCount == tracks[id].stopCount
  {
    forall x | x in SenderTrackIds(senders)
      ensures x in SenderTrackIds(profiled)
    {
      var i :| 0 <= i < |senders| && senders[i].track.Some? && senders[i].track.value == x;
      assert profiled[i].track == senders[i].track;
    }
    forall x | x in SenderTrackIds(profiled)
      ensures x in SenderTrackIds(senders)
    {
      var i :| 0 <= i < |profiled| && profiled[i].track.Some? && profiled[i].track.value == x;
      assert profiled[i].track == senders[i].track;
    }
  }

  /** Stopping a set of live tracks keeps every stop count at most one. */
  lemma StopLiveTracks(tracks: Tracks, targets: set<TrackId>)
    requires forall id :: id in tracks ==> tracks[id].stopCount <= 1
    requires forall id :: id in targets && id in tracks ==> tracks[id].stopCount == 0
    ensures forall id :: id in Media.StopAll(tracks, targets) ==> Media.StopAll(tracks, targets)[id].stopCount <= 1
  {
  }

  /** The media fields a teardown leaves keep the invariant. */
  lemma TeardownKeepsInvariant(tracks: Tracks, p: TeardownParams)
    requires MediaInvariant(tracks, p.peerConnection, p.localStream, p.localOutgoingStream, p.remoteStream,
                            p.audioContext, p.outgoingGainNode)
    ensures var r := TeardownOutcome(p);
      var tracks' := Media.StopAll(tracks, StopTargets(p));
      MediaInvariant(tracks', r.peerConnection, r.localStream, r.localOutgoingStream, r.remoteStream,
                     r.audioContext, r.outgoingGainNode)
  {
    if p.preserveLocalMedia {
      assert StopTargets(p) == {};
      Media.StopAllNothing(tracks);
    } else {
      forall id | id in StopTargets(p) && id in tracks
        ensures tracks[id].stopCount == 0
      {
        if id in StreamIds(p.localOutgoingStream) {
          var i :| 0 <= i < |p.localOutgoingStream.value| && p.localOutgoingStream.value[i] == id;
        } else {
          var i :| 0 <= i < |p.localStream.value| && p.localStream.value[i] == id;
        }
      }
      StopLiveTracks(tracks, StopTargets(p));
    }
  }

  /** A new media session keeps the invariant: it adds only new, unstopped tracks. */
  lemma SessionKeepsInvariant(tracks: Tracks, pc: Option<PeerState>, tracks': Tracks, pc': Option<PeerState>,
                              s: LocalMedia.LocalMediaSession)
    requires forall id :: id in tracks ==> tracks[id].stopCount <= 1
    requires pc.Some? ==> SendersInRegistry(tracks, pc.value.senders)
    requires forall id :: id in tracks ==> id in tracks' && tracks'[id].(contentHint := tracks[id].contentHint) == tracks[id]
    requires forall id :: id in tracks' && id !in tracks ==> tracks'[id].stopCount == 0
    requires InRegistry(tracks', s.localStream) && InRegistry(tracks', s.localOutgoingStream)
    requires forall i :: 0 <= i < |s.localStream| ==> s.localStream[i] !in tracks
    requires forall i :: 0 <= i < |s.localOutgoingStream| ==> s.localOutgoingStream[i] !in tracks
    requires s.outgoingGainNode.Some? <==> s.audioContext.Some?
    requires pc.None? ==> pc' == None
    requires pc.Some? ==>
      && pc'.Some?
      && |pc'.value.senders| == |pc.value.senders| + |s.localOutgoingStream|
      && (forall i :: 0 <= i < |pc.value.senders| ==> pc'.value.senders[i] == ProfiledSender(tracks', pc.value.senders[i]))
      && (forall j :: 0 <= j < |s.localOutgoingStream| ==>
            pc'.value.senders[|pc.value.senders| + j] == ProfiledSender(tracks', Sender(Some(s.localOutgoingStream[j]), None)))
    ensures MediaInvariant(tracks', pc', Some(s.localStream), Some(s.localOutgoingStream), None,
                           s.audioContext, s.outgoingGainNode)
  {
    forall id | id in tracks'
      ensures tracks'[id].stopCount <= 1
    {
      if id in tracks {
        assert tracks'[id].stopCount == tracks'[id].(contentHint := tracks[id].contentHint).stopCount;
      }
    }
    if pc.Some? {
      var before := pc.value.senders;
      var after := pc'.value.senders;
      forall i | 0 <= i < |after| && after[i].track.Some?
        ensures after[i].track.value in tracks'
      {
        if i < |before| {
          assert after[i].track == before[i].track;
        } else {
          assert after[i].track == Some(s.localOutgoingStream[i - |before|]);
        }
      }
    }
  }

  /**
   * The media session createLocalStream builds: on success the session is
   * built as SessionBuilt says, and the new fields keep the client's
   * invariant.
   */
  method OpenLocalMedia(env: LocalMedia.MediaEnv, tracks: Tracks, pc: Option<PeerState>, mic: bool, cam: bool)
    returns (r: LocalMedia.SessionOutcome, tracks': Tracks, pc': Option<PeerState>)
    requires LocalMedia.EnvFresh(tracks, env)
    requires pc.Some? ==> SendersInRegistry(tracks, pc.value.senders)
    requires forall id :: id in tracks ==> tracks[id].stopCount <= 1
    ensures Media.SelectUserMediaApi(env.apis).None? ==> r == LocalMedia.SessionFailed(MediaUnavailable)
    ensures Media.SelectUserMediaApi(env.apis).Some? && env.granted.None? ==> r == LocalMedia.SessionFailed(MediaRejected)
    ensures Media.SelectUserMediaApi(env.apis).Some? && env.granted.Some? ==> r.SessionCreated?
    ensures r.SessionFailed? ==> tracks' == tracks && pc' == pc
    ensures r.SessionCreated? ==>
      && env.granted.Some?
      && LocalMedia.SessionBuilt(tracks, pc, env.granted.value, env.boost, mic, cam, r.session, tracks', pc')
      && MediaInvariant(tracks', pc', Some(r.session.localStream), Some(r.session.localOutgoingStream), None,
                        r.session.audioContext, r.session.outgoingGainNode)
  {
    r, tracks', pc' := LocalMedia.CreateLocalMediaSession(env, tracks, pc, mic, cam);
    if r.SessionCreated? {
      SessionKeepsInvariant(tracks, pc, tracks', pc', r.session);
    }
  }

  /** The connection ensurePeerConnection leaves: the existing one, or a new one. */
  function EnsuredPeer(pc: Option<PeerState>): Option<PeerState> {
    if pc.Some? then pc else Some(NewPeer())
  }

  /** What ensurePeerConnection logs: the creation of a connection, when there was none. */
  function PeerCreation(pc: Option<PeerState>): seq<Action> {
    if pc.None? then [PeerCreated] else []
  }

  /** The `localStream` event of a capture: emitted when there was no local stream before and there is one now. */
  function CaptureEvent(before: Option<Stream>, after: Option<Stream>): seq<Action> {
    if before.None? && after.Some? then [Emitted(LocalStreamEvent(after.value))] else []
  }

  // ---------------------------------------------------------------------------
  // The client

  class WebrtcRoomClient {
    const defaultMicrophoneEnabled: bool := true
    const defaultCameraEnabled: bool := false
    const webSocketUrl: string

    var webSocket: Option<WebSocket>
    /** How many sockets this client has opened; the next one gets this number as its id. */
    var socketsCreated: nat
    /** An init() is under way (`initPromise` is set). */
    var initPending: bool
    var peerConnection: Option<PeerState>
    var localStream: Option<Stream>
    var localOutgoingStream: Option<Stream>
    var remoteStream: Option<Stream>
    var audioContext: Option<Handle>
    var outgoingGainNode: Option<Handle>
    var logIntervalMs: Option<int>
    /** The tracks the page holds. */
    var tracks: Tracks
    /** What the client did to the outside world, oldest first. */
    var log: seq<Action>

    predicate Valid()
      reads this
    {
      && MediaInvariant(tracks, peerConnection, localStream, localOutgoingStream, remoteStream, audioContext, outgoingGainNode)
      && (webSocket.Some? ==> webSocket.value.id < socketsCreated)
    }

    predicate SocketIsOpen()
      reads this
    {
      webSocket.Some? && webSocket.value.readyState == SocketOpen
    }

    /**
     * The local media after it was prepared for an offer or an answer, with
     * outcome `r`. An existing local stream is kept and preparing passes.
     * Without one, media is captured: preparing fails, leaving the streams
     * as they were, exactly when the browser offers no getUserMedia
     * (MediaUnavailable) or refuses the capture (MediaRejected); otherwise
     * the local stream holds the captured tracks.
     */
    twostate predicate MediaPrepared(env: LocalMedia.MediaEnv, new r: Outcome<ClientError>)
      reads this
    {
      && (old(localStream).Some? ==>
            r.Pass? && localStream == old(localStream) && localOutgoingStream == old(localOutgoingStream))
      && (old(localStream).None? && Media.SelectUserMediaApi(env.apis).None? ==> r == Fail(MediaUnavailable))
      && (old(localStream).None? && Media.SelectUserMediaApi(env.apis).Some? && env.granted.None? ==>
            r == Fail(MediaRejected))
      && (old(localStream).None? && Media.SelectUserMediaApi(env.apis).Some? && env.granted.Some? ==>
            r.Pass? && localStream == Some(LocalMedia.CapturedIds(env.granted.value)) && localOutgoingStream.Some?)
      && (r.Fail? ==> localStream == old(localStream) && localOutgoingStream == old(localOutgoingStream))
    }

    /** The media side is as it was. */
    twostate predicate MediaUnchanged()
      reads this
    {
      && peerConnection == old(peerConnection) && localStream == old(localStream)
      && localOutgoingStream == old(localOutgoingStream) && remoteStream == old(remoteStream)
      && audioContext == old(audioContext) && outgoingGainNode == old(outgoingGainNode)
      && tracks == old(tracks) && logIntervalMs == old(logIntervalMs)
    }

    /** The socket side is as it was. */
    twostate predicate SocketUnchanged()
      reads this
    {
      webSocket == old(webSocket) && socketsCreated == old(socketsCreated) && initPending == old(initPending)
    }

    /** `new WebrtcRoomClient(serverUrl)`: nothing open yet, the socket address rewritten to ws(s). */
    constructor(serverUrl: string)
      ensures Valid()
      ensures WebSocketUrl.ParseUrl(serverUrl).None? ==> webSocketUrl == serverUrl
      ensures WebSocketUrl.ParseUrl(serverUrl).Some? ==>
        WebSocketUrl.ParseUrl(webSocketUrl) ==
          Some(WebSocketUrl.ParseUrl(serverUrl).value.(
            protocol := WebSocketUrl.WebSocketProtocol(WebSocketUrl.ParseUrl(serverUrl).value.protocol)))
      ensures webSocket.None? && socketsCreated == 0 && !initPending && peerConnection.None?
      ensures localStream.None? && localOutgoingStream.None? && remoteStream.None?
      ensures audioContext.None? && outgoingGainNode.None? && logIntervalMs == Some(0)
      ensures tracks == map[] && log == []
    {
      var url := WebSocketUrl.BuildWebSocketUrl(serverUrl);
      webSocketUrl := url;
      webSocket := None;
      socketsCreated := 0;
      initPending := false;
      peerConnection := None;
      localStream := None;
      localOutgoingStream := None;
      remoteStream := None;
      audioContext := None;
      outgoingGainNode := None;
      logIntervalMs := Some(0);
      tracks := map[];
      log := [];
    }

    /** A frame on the socket, if the socket is open. */
    method SendSignalMessage(message: SignalMessage)
      modifies this
      ensures log == old(log) + SendEffect(webSocket, message)
      ensures MediaUnchanged() && SocketUnchanged()
    {
      if webSocket.Some? && webSocket.value.readyState == SocketOpen {
        log := log + [Sent(message)];
      }
    }

    /** A CustomEvent to the page. */
    method Emit(event: ClientEvent)
      modifies this
      ensures log == old(log) + [Emitted(event)]
      ensures MediaUnchanged() && SocketUnchanged()
    {
      log := log + [Emitted(event)];
    }

    /**
     * ensurePeerConnection: the existing connection is kept as it is;
     * otherwise exactly one is created (its events bound once with it).
     */
    method EnsurePeerConnection()
      requires Valid()
      modifies this
      ensures Valid()
      ensures old(peerConnection).Some? ==> peerConnection == old(peerConnection) && log == old(log)
      ensures old(peerConnection).None? ==> peerConnection == Some(NewPeer()) && log == old(log) + [PeerCreated]
      ensures localStream == old(localStream) && localOutgoingStream == old(localOutgoingStream)
      ensures remoteStream == old(remoteStream) && audioContext == old(audioContext)
      ensures outgoingGainNode == old(outgoingGainNode) && tracks == old(tracks) && logIntervalMs == old(logIntervalMs)
      ensures SocketUnchanged()
    {
      if peerConnection.Some? {
        return;
      }
      peerConnection := Some(NewPeer());
      log := log + [PeerCreated];
    }

    // -------------------------------------------------------------------------
    // init(): the single-flight socket opening

    /**
     * The synchronous part of init(): an open socket or a pending init ends
     * it at once (the caller then awaits that init); otherwise exactly one
     * socket is created and the init becomes pending.
     */
    method Init() returns (s: InitStart)
      requires Valid()
      modifies this
      ensures Valid()
      ensures old(SocketIsOpen()) ==> s == AlreadyOpen
      ensures !old(SocketIsOpen()) && old(initPending) ==> s == AwaitingPending
      ensures s != Opening ==> SocketUnchanged() && log == old(log)
      ensures !old(SocketIsOpen()) && !old(initPending) ==>
        && s == Opening
        && webSocket == Some(WebSocket(old(socketsCreated), SocketConnecting))
        && socketsCreated == old(socketsCreated) + 1
        && initPending
        && log == old(log) + [SocketCreated(old(socketsCreated), webSocketUrl)]
      ensures initPending == (old(initPending) || s == Opening)
      ensures MediaUnchanged()
    {
      if webSocket.Some? && webSocket.value.readyState == SocketOpen {
        return AlreadyOpen;
      }
      if initPending {
        return AwaitingPending;
      }
      webSocket := Some(WebSocket(socketsCreated, SocketConnecting));
      log := log + [SocketCreated(socketsCreated, webSocketUrl)];
      socketsCreated := socketsCreated + 1;
      initPending := true;
      s := Opening;
    }

    /**
     * The pending init settles: the socket opened, or it failed, in which
     * case the socket is closed and dropped and init throws. Either way the
     * init is no longer pending.
     */
    method SettleInit(socketOpened: bool) returns (r: Outcome<ClientError>)
      requires Valid() && initPending
      modifies this
      ensures Valid()
      ensures !initPending && socketsCreated == old(socketsCreated)
      ensures socketOpened ==> r == Pass && log == old(log)
      ensures socketOpened && old(webSocket).Some? ==> webSocket == Some(old(webSocket).value.(readyState := SocketOpen))
      ensures socketOpened && old(webSocket).None? ==> webSocket.None?
      ensures !socketOpened ==> r == Fail(ConnectFailed) && webSocket.None?
      ensures !socketOpened ==>
        log == old(log) + (if old(webSocket).Some? then [SocketClosed(old(webSocket).value.id)] else [])
      ensures MediaUnchanged()
    {
      if socketOpened {
        if webSocket.Some? {
          webSocket := Some(webSocket.value.(readyState := SocketOpen));
        }
        r := Pass;
      } else {
        if webSocket.Some? {
          log := log + [SocketClosed(webSocket.value.id)];
        }
        webSocket := None;
        r := Fail(ConnectFailed);
      }
      initPending := false;
    }

    /** The socket's `close` listener: only the socket the client still holds is dropped. */
    method HandleSocketClose(socketId: nat)
      modifies this
      ensures old(webSocket).Some? && old(webSocket).value.id == socketId ==> webSocket.None?
      ensures !(old(webSocket).Some? && old(webSocket).value.id == socketId) ==> webSocket == old(webSocket)
      ensures socketsCreated == old(socketsCreated) && initPending == old(initPending)
      ensures log == old(log) && MediaUnchanged()
    {
      if webSocket.Some? && webSocket.value.id == socketId {
        webSocket := None;
      }
    }

    /**
     * startCall: run init to its end when the socket is not open (`socketOpened`
     * is how the socket turned out), throw when it is still not open, and
     * ask the server for a call with one `ready` unless a peer connection
     * already exists.
     */
    method StartCall(socketOpened: bool) returns (r: Outcome<ClientError>)
      requires Valid()
      modifies this
      ensures Valid()
      ensures MediaUnchanged()
      ensures r == Fail(ConnectFailed) <==> !old(SocketIsOpen()) && !socketOpened
      ensures r == Fail(NotInitialized) <==>
        !old(SocketIsOpen()) && socketOpened && old(initPending) && old(webSocket).None?
      ensures r.Pass? ==> SocketIsOpen()
      ensures old(SocketIsOpen()) ==> r.Pass? && SocketUnchanged()
      ensures r.Pass? ==>
        log == old(log)
               + (if !old(SocketIsOpen()) && !old(initPending) then [SocketCreated(old(socketsCreated), webSocketUrl)] else [])
               + (if old(peerConnection).None? then [Sent(Ready)] else [])
      ensures r.Fail? ==> |old(log)| <= |log| && log[..|old(log)|] == old(log)
      ensures r.Fail? ==> forall i :: |old(log)| <= i < |log| ==> !log[i].Sent?
    {
      if !(webSocket.Some? && webSocket.value.readyState == SocketOpen) {
        var started := Init();
        r := SettleInit(socketOpened);
        if r.Fail? {
          return;
        }
      }
      if !(webSocket.Some? && webSocket.value.readyState == SocketOpen) {
        return Fail(NotInitialized);
      }
      if peerConnection.Some? {
        return Pass;
      }
      log := log + [Sent(Ready)];
      r := Pass;
    }

    // -------------------------------------------------------------------------
    // Peer-connection events bound by setupPeerConnectionEvents

    /** A local ICE candidate is sent to the other side. */
    method OnLocalIceCandidate(candidate: IceCandidateInit)
      modifies this
      ensures log == old(log) + SendEffect(webSocket, Candidate(candidate))
      ensures MediaUnchanged() && SocketUnchanged()
    {
      SendSignalMessage(Candidate(candidate));
    }

    /** A remote stream arrived: the page is told; the client keeps no reference to it. */
    method OnRemoteStream(stream: Stream)
      modifies this
      ensures log == old(log) + [Emitted(RemoteStreamEvent(stream))]
      ensures MediaUnchanged() && SocketUnchanged()
    {
      Emit(RemoteStreamEvent(stream));
    }

    /**
     * The connection state changed: the page is told, and on `connected` the
     * stats timer starts (`interval` is the id the timer got, if any).
     */
    method OnConnectionStateChange(state: Option<ConnectionState>, interval: Option<int>)
      modifies this
      ensures log == old(log) + [Emitted(ConnectionStateEvent(state))]
      ensures logIntervalMs == (if state == Some(Connected) then interval else old(logIntervalMs))
      ensures peerConnection == old(peerConnection) && localStream == old(localStream)
      ensures localOutgoingStream == old(localOutgoingStream) && remoteStream == old(remoteStream)
      ensures audioContext == old(audioContext) && outgoingGainNode == old(outgoingGainNode) && tracks == old(tracks)
      ensures SocketUnchanged()
    {
      Emit(ConnectionStateEvent(state));
      if state == Some(Connected) {
        logIntervalMs := interval;
      }
    }

    // -------------------------------------------------------------------------
    // Local media

    /**
     * attachExistingLocalTracksToPeerConnection: without both a peer
     * connection and an outgoing stream nothing happens; otherwise the
     * outgoing tracks not yet sent get senders, and the quality profile runs
     * only when at least one was added.
     */
    method AttachExistingLocalTracksToPeerConnection()
      requires Valid()
      modifies this
      ensures Valid()
      ensures old(peerConnection).None? || old(localOutgoingStream).None? ==> peerConnection == old(peerConnection) && tracks == old(tracks)
      ensures old(peerConnection).Some? && old(localOutgoingStream).Some? ==>
        var before := old(peerConnection).value.senders;
        var added := Unattached(old(localOutgoingStream).value, AttachedTrackIds(before));
        var attached := before + NewSenders(added);
        && peerConnection.Some?
        && peerConnection.value == old(peerConnection).value.(senders := peerConnection.value.senders)
        && (added == [] ==> peerConnection == old(peerConnection) && tracks == old(tracks))
        && (added != [] ==>
              && SendersInRegistry(old(tracks), attached)
              && |peerConnection.value.senders| == |attached|
              && (forall i :: 0 <= i < |attached| ==> peerConnection.value.senders[i] == ProfiledSender(old(tracks), attached[i]))
              && tracks == HintVideoSenders(old(tracks), attached))
        && (forall x :: x in old(localOutgoingStream).value ==> x in SenderTrackIds(peerConnection.value.senders))
      ensures localStream == old(localStream) && localOutgoingStream == old(localOutgoingStream)
      ensures remoteStream == old(remoteStream) && audioContext == old(audioContext)
      ensures outgoingGainNode == old(outgoingGainNode) && logIntervalMs == old(logIntervalMs)
      ensures log == old(log) && SocketUnchanged()
    {
      if peerConnection.None? || localOutgoingStream.None? {
        return;
      }
      var outgoing := localOutgoingStream.value;
      var pc, count := AttachLocalTracksToPeerConnection(peerConnection.value, outgoing);
      AttachCoversOutgoing(peerConnection.value, outgoing);
      if count == 0 {
        assert pc == peerConnection.value;
        return;
      }
      AttachKeepsSendersInRegistry(tracks, peerConnection.value, outgoing);
      var attached := pc.senders;
      var tracks';
      pc, tracks' := ApplySenderQualityProfile(pc, tracks);
      ProfileKeepsInvariant(tracks, attached, pc.senders, localStream);
      ProfileKeepsInvariant(tracks, attached, pc.senders, localOutgoingStream);
      tracks := tracks';
      peerConnection := Some(pc);
    }

    /** The media fields take the given values, which keep the invariant. */
    method SetMediaFields(tracks': Tracks, pc': Option<PeerState>, localStream': Option<Stream>,
                          localOutgoingStream': Option<Stream>, remoteStream': Option<Stream>,
                          audioContext': Option<Handle>, outgoingGainNode': Option<Handle>)
      requires MediaInvariant(tracks', pc', localStream', localOutgoingStream', remoteStream', audioContext', outgoingGainNode')
      requires webSocket.Some? ==> webSocket.value.id < socketsCreated
      modifies this
      ensures Valid()
      ensures tracks == tracks' && peerConnection == pc'
      ensures localStream == localStream' && localOutgoingStream == localOutgoingStream' && remoteStream == remoteStream'
      ensures audioContext == audioContext' && outgoingGainNode == outgoingGainNode'
      ensures logIntervalMs == old(logIntervalMs) && log == old(log) && SocketUnchanged()
    {
      tracks := tracks';
      peerConnection := pc';
      localStream := localStream';
      localOutgoingStream := localOutgoingStream';
      remoteStream := remoteStream';
      audioContext := audioContext';
      outgoingGainNode := outgoingGainNode';
    }

    /**
     * createLocalStream: build the media session and keep its streams, its
     * audio graph and the connection with the new senders, then tell the
     * page. A session that could not be built throws, leaving the client as
     * it was.
     */
    method CreateLocalStream(env: LocalMedia.MediaEnv) returns (r: Outcome<ClientError>)
      requires Valid()
      requires LocalMedia.EnvFresh(tracks, env)
      modifies this
      ensures Valid()
      ensures Media.SelectUserMediaApi(env.apis).None? ==> r == Fail(MediaUnavailable)
      ensures Media.SelectUserMediaApi(env.apis).Some? && env.granted.None? ==> r == Fail(MediaRejected)
      ensures Media.SelectUserMediaApi(env.apis).Some? && env.granted.Some? ==> r.Pass?
      ensures r.Fail? ==> MediaUnchanged() && log == old(log)
      ensures r.Pass? ==>
        && env.granted.Some?
        && localStream == Some(LocalMedia.CapturedIds(env.granted.value))
        && localOutgoingStream.Some?
        && LocalMedia.SessionBuilt(old(tracks), old(peerConnection), env.granted.value, env.boost,
             defaultMicrophoneEnabled, defaultCameraEnabled,
             LocalMedia.LocalMediaSession(localStream.value, localOutgoingStream.value, audioContext, outgoingGainNode),
             tracks, peerConnection)
        && log == old(log) + [Emitted(LocalStreamEvent(localStream.value))]
      ensures remoteStream == old(remoteStream) && logIntervalMs == old(logIntervalMs)
      ensures SocketUnchanged()
    {
      var session, tracks', pc' :=
        OpenLocalMedia(env, tracks, peerConnection, defaultMicrophoneEnabled, defaultCameraEnabled);
      if session.SessionFailed? {
        return Fail(session.error);
      }
      SetMediaFields(tracks', pc', Some(session.session.localStream), Some(session.session.localOutgoingStream),
                     remoteStream, session.session.audioContext, session.session.outgoingGainNode);
      Emit(LocalStreamEvent(session.session.localStream));
      r := Pass;
    }

    /**
     * The first steps of startOffer and of answering an offer: make sure a
     * peer connection exists, then capture media only if there is none. A
     * capture that fails ends here, before anything is sent.
     */
    method PrepareLocalMedia(env: LocalMedia.MediaEnv) returns (r: Outcome<ClientError>)
      requires Valid()
      requires LocalMedia.EnvFresh(tracks, env)
      modifies this
      ensures Valid()
      ensures peerConnection.Some?
      ensures MediaPrepared(env, r)
      ensures old(localStream).Some? || r.Fail? ==>
        && peerConnection == EnsuredPeer(old(peerConnection))
        && tracks == old(tracks) && audioContext == old(audioContext) && outgoingGainNode == old(outgoingGainNode)
      ensures old(localStream).None? && r.Pass? ==>
        && env.granted.Some? && localStream.Some? && localOutgoingStream.Some?
        && LocalMedia.SessionBuilt(old(tracks), EnsuredPeer(old(peerConnection)), env.granted.value, env.boost,
             defaultMicrophoneEnabled, defaultCameraEnabled,
             LocalMedia.LocalMediaSession(localStream.value, localOutgoingStream.value, audioContext, outgoingGainNode),
             tracks, peerConnection)
      ensures log == old(log) + PeerCreation(old(peerConnection)) + CaptureEvent(old(localStream), localStream)
      ensures remoteStream == old(remoteStream) && logIntervalMs == old(logIntervalMs)
      ensures SocketUnchanged()
    {
      EnsurePeerConnection();
      r := Pass;
      if localStream.None? {
        r := CreateLocalStream(env);
      }
    }

    /**
     * The second half of startOffer, once a peer connection and the local
     * media exist: attach the outgoing tracks, create the offer (covering
     * every sender's track), set it as the local description and only then
     * send it. `offer` is the description the peer connection generates.
     */
    method SendOffer(offer: Sdp)
      requires Valid() && peerConnection.Some?
      modifies this
      ensures Valid()
      ensures peerConnection.Some? && peerConnection.value.localDescription == Some(offer)
      ensures old(localOutgoingStream).Some? ==>
        forall x :: x in old(localOutgoingStream).value ==> x in SenderTrackIds(peerConnection.value.senders)
      ensures log == old(log) + [OfferCreated(offer, SenderTrackIds(peerConnection.value.senders)), LocalDescriptionSet(offer)]
                     + SendEffect(webSocket, Offer(offer))
      ensures localStream == old(localStream) && localOutgoingStream == old(localOutgoingStream)
      ensures remoteStream == old(remoteStream) && logIntervalMs == old(logIntervalMs)
      ensures audioContext == old(audioContext) && outgoingGainNode == old(outgoingGainNode)
      ensures SocketUnchanged()
    {
      AttachExistingLocalTracksToPeerConnection();
      var pc := peerConnection.value;
      log := log + [OfferCreated(offer, SenderTrackIds(pc.senders))];
      peerConnection := Some(pc.(localDescription := Some(offer)));
      log := log + [LocalDescriptionSet(offer)];
      SendSignalMessage(Offer(offer));
    }

    /**
     * startOffer: make sure a peer connection exists, capture media only if
     * there is none (a capture that fails ends the offer before anything is
     * sent), then send the offer.
     */
    method StartOffer(env: LocalMedia.MediaEnv, offer: Sdp) returns (r: Outcome<ClientError>)
      requires Valid()
      requires LocalMedia.EnvFresh(tracks, env)
      modifies this
      ensures Valid()
      ensures peerConnection.Some?
      ensures MediaPrepared(env, r)
      ensures r.Pass? ==> localStream.Some?
      ensures r.Fail? ==> log == old(log) + PeerCreation(old(peerConnection))
      ensures r.Pass? ==>
        && peerConnection.value.localDescription == Some(offer)
        && log == old(log) + PeerCreation(old(peerConnection)) + CaptureEvent(old(localStream), localStream)
                  + [OfferCreated(offer, SenderTrackIds(peerConnection.value.senders)), LocalDescriptionSet(offer)]
                  + SendEffect(webSocket, Offer(offer))
      ensures r.Pass? && localOutgoingStream.Some? ==>
        forall x :: x in localOutgoingStream.value ==> x in SenderTrackIds(peerConnection.value.senders)
      ensures remoteStream == old(remoteStream) && logIntervalMs == old(logIntervalMs)
      ensures SocketUnchanged()
    {
      r := PrepareLocalMedia(env);
      if r.Fail? {
        return;
      }
      SendOffer(offer);
    }

    // -------------------------------------------------------------------------
    // Microphone and camera

    /**
     * isMicrophoneEnabled: None when there is no microphone track; otherwise
     * the state of a microphone track, the outgoing stream's first one when
     * it has one.
     */
    function IsMicrophoneEnabled(): (r: Option<bool>)
      reads this
      requires Valid()
      ensures r.None? <==> KindTargets(Audio) == {}
      ensures Targets(tracks, Audio, localOutgoingStream) != {} ==> r == FirstEnabled(tracks, Audio, localOutgoingStream)
      ensures Targets(tracks, Audio, localOutgoingStream) == {} ==> r == FirstEnabled(tracks, Audio, localStream)
      ensures r.Some? ==> exists x :: x in KindTargets(Audio) && tracks[x].enabled == r.value
    {
      LiveInRegistry(tracks, localStream, localOutgoingStream);
      GetPrimaryTrackEnabled(Audio, tracks, localStream, localOutgoingStream)
    }

    /**
     * isCameraEnabled: None when there is no camera track; otherwise the
     * state of a camera track, the capture stream's first one when it has one.
     */
    function IsCameraEnabled(): (r: Option<bool>)
      reads this
      requires Valid()
      ensures r.None? <==> KindTargets(Video) == {}
      ensures Targets(tracks, Video, localStream) != {} ==> r == FirstEnabled(tracks, Video, localStream)
      ensures Targets(tracks, Video, localStream) == {} ==> r == FirstEnabled(tracks, Video, localOutgoingStream)
      ensures r.Some? ==> exists x :: x in KindTargets(Video) && tracks[x].enabled == r.value
    {
      LiveInRegistry(tracks, localStream, localOutgoingStream);
      GetPrimaryTrackEnabled(Video, tracks, localStream, localOutgoingStream)
    }

    /** The tracks of `kind` in both streams. */
    function KindTargets(kind: TrackKind): set<TrackId>
      reads this
    {
      Targets(tracks, kind, localStream) + Targets(tracks, kind, localOutgoingStream)
    }

    /**
     * setMicrophoneEnabled / setCameraEnabled: set every track of the kind,
     * each once; None when there is none, otherwise the state read back,
     * which is the one requested.
     */
    method SetKindEnabled(kind: TrackKind, enabled: bool) returns (r: Option<bool>)
      requires Valid()
      modifies this
      ensures Valid()
      ensures r.None? <==> old(KindTargets(kind)) == {}
      ensures r.Some? ==> r.value == enabled
      ensures tracks == EnableAll(old(tracks), old(KindTargets(kind)), enabled)
      ensures r.None? ==> tracks == old(tracks)
      ensures r.Some? ==> GetPrimaryTrackEnabled(kind, tracks, localStream, localOutgoingStream) == Some(enabled)
      ensures peerConnection == old(peerConnection) && localStream == old(localStream)
      ensures localOutgoingStream == old(localOutgoingStream) && remoteStream == old(remoteStream)
      ensures audioContext == old(audioContext) && outgoingGainNode == old(outgoingGainNode)
      ensures logIntervalMs == old(logIntervalMs) && log == old(log) && SocketUnchanged()
    {
      LiveInRegistry(tracks, localStream, localOutgoingStream);
      ghost var all := KindTargets(kind);
      var hasTrack, tracks', writes := SetTrackEnabled(kind, enabled, tracks, localStream, localOutgoingStream);
      EnableAllKeepsLive(tracks, all, enabled, localStream);
      EnableAllKeepsLive(tracks, all, enabled, localOutgoingStream);
      if hasTrack {
        ReadBackAfterEnable(kind, enabled, tracks, localStream, localOutgoingStream);
      } else {
        EnableAllNothing(tracks, enabled);
      }
      tracks := tracks';
      if hasTrack {
        r := Some(GetPrimaryTrackEnabled(kind, tracks, localStream, localOutgoingStream).GetOr(enabled));
      } else {
        r := None;
      }
    }

    method SetMicrophoneEnabled(enabled: bool) returns (r: Option<bool>)
      requires Valid()
      modifies this
      ensures Valid()
      ensures r.None? <==> old(KindTargets(Audio)) == {}
      ensures r.Some? ==> r.value == enabled && IsMicrophoneEnabled() == Some(enabled)
      ensures tracks == EnableAll(old(tracks), old(KindTargets(Audio)), enabled)
      ensures localStream == old(localStream) && localOutgoingStream == old(localOutgoingStream)
      ensures peerConnection == old(peerConnection) && log == old(log) && SocketUnchanged()
    {
      r := SetKindEnabled(Audio, enabled);
    }

    method SetCameraEnabled(enabled: bool) returns (r: Option<bool>)
      requires Valid()
      modifies this
      ensures Valid()
      ensures r.None? <==> old(KindTargets(Video)) == {}
      ensures r.Some? ==> r.value == enabled && IsCameraEnabled() == Some(enabled)
      ensures tracks == EnableAll(old(tracks), old(KindTargets(Video)), enabled)
      ensures localStream == old(localStream) && localOutgoingStream == old(localOutgoingStream)
      ensures peerConnection == old(peerConnection) && log == old(log) && SocketUnchanged()
    {
      r := SetKindEnabled(Video, enabled);
    }

    /**
     * toggleMicrophone: request the opposite of the current state. With no
     * microphone track it returns None and changes nothing.
     */
    method ToggleMicrophone() returns (r: Option<bool>)
      requires Valid()
      modifies this
      ensures Valid()
      ensures old(IsMicrophoneEnabled()).None? ==> r.None? && tracks == old(tracks)
      ensures old(IsMicrophoneEnabled()).Some? ==> r == Some(!old(IsMicrophoneEnabled()).value)
      ensures r.Some? ==> IsMicrophoneEnabled() == r
      ensures tracks == EnableAll(old(tracks), old(KindTargets(Audio)), !old(IsMicrophoneEnabled()).GetOr(true))
      ensures localStream == old(localStream) && localOutgoingStream == old(localOutgoingStream)
      ensures peerConnection == old(peerConnection) && log == old(log) && SocketUnchanged()
    {
      var nextEnabled := !IsMicrophoneEnabled().GetOr(true);
      r := SetMicrophoneEnabled(nextEnabled);
    }

    /** toggleCamera: as toggleMicrophone, for the camera. */
    method ToggleCamera() returns (r: Option<bool>)
      requires Valid()
      modifies this
      ensures Valid()
      ensures old(IsCameraEnabled()).None? ==> r.None? && tracks == old(tracks)
      ensures old(IsCameraEnabled()).Some? ==> r == Some(!old(IsCameraEnabled()).value)
      ensures r.Some? ==> IsCameraEnabled() == r
      ensures tracks == EnableAll(old(tracks), old(KindTargets(Video)), !old(IsCameraEnabled()).GetOr(true))
      ensures localStream == old(localStream) && localOutgoingStream == old(localOutgoingStream)
      ensures peerConnection == old(peerConnection) && log == old(log) && SocketUnchanged()
    {
      var nextEnabled := !IsCameraEnabled().GetOr(true);
      r := SetCameraEnabled(nextEnabled);
    }

    // -------------------------------------------------------------------------
    // Teardown

    /** What teardownCallSession hands to the teardown. */
    function TeardownInput(notifyRemote: bool, eventType: Option<TeardownEvent>, preserveLocalMedia: bool): TeardownParams
      reads this
    {
      TeardownParams(notifyRemote, eventType, preserveLocalMedia, logIntervalMs, webSocket, peerConnection,
                     localStream, localOutgoingStream, remoteStream, audioContext, outgoingGainNode)
    }

    /**
     * teardownCallSession: run the teardown over the client's resources and
     * keep what it leaves. The socket stays as it is.
     */
    method TeardownCallSession(notifyRemote: bool, eventType: Option<TeardownEvent>, preserveLocalMedia: bool)
      requires Valid()
      modifies this
      ensures Valid()
      ensures var p := old(TeardownInput(notifyRemote, eventType, preserveLocalMedia));
        var o := TeardownOutcome(p);
        && tracks == Media.StopAll(old(tracks), StopTargets(p))
        && log == old(log) + TeardownEffects(p)
        && peerConnection == o.peerConnection && localStream == o.localStream
        && localOutgoingStream == o.localOutgoingStream && remoteStream == o.remoteStream
        && audioContext == o.audioContext && outgoingGainNode == o.outgoingGainNode
      ensures logIntervalMs == old(logIntervalMs) && SocketUnchanged()
    {
      var p := TeardownInput(notifyRemote, eventType, preserveLocalMedia);
      var result, tracks', effects := TeardownCallSessionResources(p, tracks);
      TeardownKeepsInvariant(tracks, p);
      SetMediaFields(tracks', result.peerConnection, result.localStream, result.localOutgoingStream,
                     result.remoteStream, result.audioContext, result.outgoingGainNode);
      log := log + effects;
    }

    /**
     * handlePeerLeft: the other side hung up. No hangup is sent back, the
     * page gets `peerLeft`, and the local media stays as it is, so no track
     * is stopped.
     */
    method HandlePeerLeft()
      requires Valid()
      modifies this
      ensures Valid()
      ensures peerConnection.None? && remoteStream.None?
      ensures tracks == old(tracks)
      ensures localStream == old(localStream) && localOutgoingStream == old(localOutgoingStream)
      ensures audioContext == old(audioContext) && outgoingGainNode == old(outgoingGainNode)
      ensures log == old(log) + [IntervalCleared(old(logIntervalMs))]
                     + (if old(peerConnection).Some? then [PeerClosed] else [])
                     + [Emitted(PeerLeftEvent)]
      ensures logIntervalMs == old(logIntervalMs) && SocketUnchanged()
    {
      ghost var p := TeardownInput(false, Some(TeardownEvent.PeerLeft), true);
      TeardownCallSession(false, Some(TeardownEvent.PeerLeft), true);
      PreserveKeepsLocalMedia(p);
      Media.StopAllNothing(old(tracks));
    }

    /**
     * endCall: hang up. The local media is released (each of its tracks
     * stopped once, the audio context closed), the other side is told unless
     * `notifyRemote` is false, and the page gets `endCall`.
     */
    method EndCall(notifyRemote: bool)
      requires Valid()
      modifies this
      ensures Valid()
      ensures peerConnection.None? && remoteStream.None?
      ensures localStream.None? && localOutgoingStream.None? && audioContext.None? && outgoingGainNode.None?
      ensures tracks == Media.StopAll(old(tracks), StreamIds(old(localOutgoingStream)) + StreamIds(old(localStream)))
      ensures log == old(log) + TeardownEffects(old(TeardownInput(notifyRemote, Some(TeardownEvent.EndCall), false)))
      ensures Emitted(EndCallEvent) in log[|old(log)|..]
      ensures Sent(Hangup) in log[|old(log)|..] <==> notifyRemote && old(SocketIsOpen())
      ensures logIntervalMs == old(logIntervalMs) && SocketUnchanged()
    {
      ghost var p := TeardownInput(notifyRemote, Some(TeardownEvent.EndCall), false);
      TeardownCallSession(notifyRemote, Some(TeardownEvent.EndCall), false);
      assert StopTargets(p) == StreamIds(old(localOutgoingStream)) + StreamIds(old(localStream));
      assert log[|old(log)|..] == TeardownEffects(p);
    }

    /** leaveRoom: the same as endCall. */
    method LeaveRoom(notifyRemote: bool)
      requires Valid()
      modifies this
      ensures Valid()
      ensures peerConnection.None? && remoteStream.None?
      ensures localStream.None? && localOutgoingStream.None? && audioContext.None? && outgoingGainNode.None?
      ensures tracks == Media.StopAll(old(tracks), StreamIds(old(localOutgoingStream)) + StreamIds(old(localStream)))
      ensures log == old(log) + TeardownEffects(old(TeardownInput(notifyRemote, Some(TeardownEvent.EndCall), false)))
      ensures logIntervalMs == old(logIntervalMs) && SocketUnchanged()
    {
      EndCall(notifyRemote);
    }

    /** destroy: close and drop the peer connection and the socket, and forget a pending init. */
    method Destroy()
      requires Valid()
      modifies this
      ensures Valid()
      ensures peerConnection.None? && webSocket.None? && !initPending
      ensures log == old(log) + (if old(peerConnection).Some? then [PeerClosed] else [])
                     + (if old(webSocket).Some? then [SocketClosed(old(webSocket).value.id)] else [])
      ensures localStream == old(localStream) && localOutgoingStream == old(localOutgoingStream)
      ensures remoteStream == old(remoteStream) && audioContext == old(audioContext)
      ensures outgoingGainNode == old(outgoingGainNode) && tracks == old(tracks) && logIntervalMs == old(logIntervalMs)
      ensures socketsCreated == old(socketsCreated)
    {
      if peerConnection.Some? {
        log := log + [PeerClosed];
      }
      peerConnection := None;
      if webSocket.Some? {
        log := log + [SocketClosed(webSocket.value.id)];
      }
      webSocket := None;
      initPending := false;
    }

    /** cleanUp: leave the room (telling the other side), then destroy. Everything is released. */
    method CleanUp()
      requires Valid()
      modifies this
      ensures Valid()
      ensures peerConnection.None? && webSocket.None? && !initPending
      ensures localStream.None? && localOutgoingStream.None? && remoteStream.None?
      ensures audioContext.None? && outgoingGainNode.None?
      ensures tracks == Media.StopAll(old(tracks), StreamIds(old(localOutgoingStream)) + StreamIds(old(localStream)))
      ensures log == old(log) + TeardownEffects(old(TeardownInput(true, Some(TeardownEvent.EndCall), false)))
                     + (if old(webSocket).Some? then [SocketClosed(old(webSocket).value.id)] else [])
    {
      LeaveRoom(true);
      Destroy();
    }
  }
}
