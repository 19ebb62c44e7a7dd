/**
 * The room page's controller (use-p2p-room.ts): it owns a room client and
 * the UI state, turns the client's events into patches of that state, and
 * forwards the page's join, leave and toggle actions to the client.
 *
 * Each handler is a method on the controller whose new state is the old
 * one merged with the handler's patch; the lemmas below say what each patch
 * does to any state.
 */
module RoomController {
  import opened Common
  import opened Browser
  import opened RoomTypes
  import opened Texts
  import opened UiStateMerge
  import RoomClient
  import Teardown
  import Session

  // ---------------------------------------------------------------------------
  // The patches the handlers apply

  /** onLocalStream: media is ready; the flags are the client's, defaulting to on. */
  function LocalStreamPatch(microphone: Option<bool>, camera: Option<bool>): UiPatch {
    EmptyPatch.(isLocalMediaReady := Some(true),
                isMicrophoneEnabled := Some(microphone.GetOr(true)),
                isCameraEnabled := Some(camera.GetOr(true)))
  }

  /** onRemoteStream. */
  const RemoteStreamPatch: UiPatch := EmptyPatch.(hasRemoteParticipant := Some(true))

  /** onConnectionStateChange, for a defined state. */
  function ConnectionStatePatch(state: ConnectionState): UiPatch {
    EmptyPatch.(status := Some(Peer(state)), hasRemoteParticipant := Some(state == Connected))
  }

  /** onRoomState: the updater reads the previous state. */
  function RoomStatePatch(previous: UiState, next: RoomState): UiPatch {
    EmptyPatch.(roomState := Some(next),
                hasRemoteParticipant := Some(if next.participants < 2 then false else previous.hasRemoteParticipant))
  }

  /** The message shown when the room refuses the join. */
  function RoomFullMessage(reason: Option<string>): string {
    JoinFailedReasonPrefix + " " + reason.GetOr(GenericRoomFullReason)
  }

  /** onRoomFull. */
  function RoomFullPatch(reason: Option<string>): UiPatch {
    EmptyPatch.(isJoining := Some(false), isRoomJoined := Some(false), status := Some(RoomFull),
                errorMessage := Some(Some(RoomFullMessage(reason))))
  }

  /** onError. */
  const ErrorPatch: UiPatch := EmptyPatch.(errorMessage := Some(Some(WebrtcErrorMessage)))

  /** onPeerLeft: back to waiting in the room, media flags read again. */
  function PeerLeftPatch(hasLocalVideoSource: bool, microphone: Option<bool>, camera: Option<bool>): UiPatch {
    UiPatch(
      status := Some(WaitingForPeer),
      isJoining := Some(false),
      isRoomJoined := Some(true),
      hasRemoteParticipant := Some(false),
      isLocalMediaReady := Some(hasLocalVideoSource),
      isMicrophoneEnabled := Some(microphone.GetOr(true)),
      isCameraEnabled := Some(camera.GetOr(false)),
      roomState := None,
      errorMessage := Some(None))
  }

  /** joinRoom, before the client is asked. */
  const JoinStartPatch: UiPatch := EmptyPatch.(errorMessage := Some(None), isJoining := Some(true), status := Some(Peer(Connecting)))

  /** joinRoom, when startCall settled. */
  const JoinedPatch: UiPatch := EmptyPatch.(isRoomJoined := Some(true), status := Some(WaitingForPeer))

  /** joinRoom, when startCall threw. */
  const JoinFailedPatch: UiPatch := EmptyPatch.(status := Some(Peer(Disconnected)), errorMessage := Some(Some(JoinFailedMessage)))

  /** joinRoom, in the `finally` block. */
  const JoinSettledPatch: UiPatch := EmptyPatch.(isJoining := Some(false))

  /** leaveRoom. */
  const LeavePatch: UiPatch := EmptyPatch.(
    status := Some(Peer(Disconnected)), errorMessage := Some(None), isRoomJoined := Some(false),
    hasRemoteParticipant := Some(false), isLocalMediaReady := Some(false),
    isMicrophoneEnabled := Some(true), isCameraEnabled := Some(false))

  /** toggleMicrophone: only a boolean answer from the client is written. */
  function MicrophonePatch(next: Option<bool>): UiPatch {
    if next.Some? then EmptyPatch.(isMicrophoneEnabled := Some(next.value)) else EmptyPatch
  }

  /** toggleCamera: only a boolean answer from the client is written. */
  function CameraPatch(next: Option<bool>): UiPatch {
    if next.Some? then EmptyPatch.(isCameraEnabled := Some(next.value)) else EmptyPatch
  }

  /** The state after a whole joinRoom: the three patches in the order the code applies them. */
  function JoinRoomState(s: UiState, started: bool): UiState {
    MergeUiState(MergeUiState(MergeUiState(s, JoinStartPatch), if started then JoinedPatch else JoinFailedPatch),
                 JoinSettledPatch)
  }

  // ---------------------------------------------------------------------------
  // What each patch does to any state

  /** A room update replaces the room; fewer than two people means nobody else is in the call. */
  lemma RoomStateUpdate(s: UiState, next: RoomState)
    ensures MergeUiState(s, RoomStatePatch(s, next)) ==
      s.(roomState := next, hasRemoteParticipant := next.participants >= 2 && s.hasRemoteParticipant)
  {
  }

  /** A connection state is shown as the status; only `connected` counts as the peer being there. */
  lemma ConnectionStateUpdate(s: UiState, state: ConnectionState)
    ensures MergeUiState(s, ConnectionStatePatch(state)) ==
      s.(status := Peer(state), hasRemoteParticipant := state == Connected)
  {
  }

  /** A full room ends the join attempt with the reason, or the generic one, after the prefix. */
  lemma RoomFullUpdate(s: UiState, reason: Option<string>)
    ensures MergeUiState(s, RoomFullPatch(reason)) ==
      s.(isJoining := false, isRoomJoined := false, status := RoomFull,
         errorMessage := Some(JoinFailedReasonPrefix + " " + (if reason.Some? then reason.value else GenericRoomFullReason)))
  {
  }

  /** After the peer left one is still in the room, waiting, with no error. */
  lemma PeerLeftUpdate(s: UiState, hasLocalVideoSource: bool, microphone: Option<bool>, camera: Option<bool>)
    ensures var r := MergeUiState(s, PeerLeftPatch(hasLocalVideoSource, microphone, camera));
      && r.status == WaitingForPeer && r.isRoomJoined && !r.isJoining && !r.hasRemoteParticipant
      && r.errorMessage.None? && r.isLocalMediaReady == hasLocalVideoSource
      && r.isMicrophoneEnabled == (microphone.None? || microphone.value)
      && r.isCameraEnabled == (camera.Some? && camera.value)
      && r.roomState == s.roomState
  {
  }

  /**
   * joinRoom ends not joining: in the room and waiting for the peer when the
   * call started, and out of it with the join-failed message when it did not.
   */
  lemma JoinRoomOutcome(s: UiState, started: bool)
    ensures started ==>
      JoinRoomState(s, started) ==
        s.(errorMessage := None, isJoining := false, status := WaitingForPeer, isRoomJoined := true)
    ensures !started ==>
      JoinRoomState(s, started) ==
        s.(errorMessage := Some(JoinFailedMessage), isJoining := false, status := Peer(Disconnected))
  {
  }

  /**
   * The leave patch on its own resets the call fields and keeps the room
   * counts and the join flag. It is the state between the patch and the
   * endCall event; after that event the whole state is the initial one.
   */
  lemma LeaveUpdate(s: UiState)
    ensures MergeUiState(s, LeavePatch) ==
      InitialUiState.(isJoining := s.isJoining, roomState := s.roomState)
  {
  }

  /** A toggle the client could not perform leaves the state as it was. */
  lemma ToggleWithoutTrack(s: UiState)
    ensures MergeUiState(s, MicrophonePatch(None)) == s
    ensures MergeUiState(s, CameraPatch(None)) == s
  {
  }

  // ---------------------------------------------------------------------------
  // The controller

  /** useP2pRoom: the client the page talks to, and the state the page renders. */
  class P2pRoomController {
    const roomClient: RoomClient.WebrtcRoomClient
    var uiState: UiState

    predicate Valid()
      reads this, roomClient
    {
      roomClient.Valid()
    }

    /** The hook's first render: a new client and the initial state. */
    constructor(serverUrl: string)
      ensures Valid() && fresh(roomClient)
      ensures uiState == InitialUiState
      ensures roomClient.log == [] && roomClient.peerConnection.None? && roomClient.webSocket.None?
    {
      roomClient := new RoomClient.WebrtcRoomClient(serverUrl);
      uiState := InitialUiState;
    }

    method PatchUiState(patch: UiPatch)
      modifies this
      ensures uiState == MergeUiState(old(uiState), patch)
    {
      uiState := MergeUiState(uiState, patch);
    }

    method OnLocalStream()
      requires Valid()
      modifies this
      ensures uiState == MergeUiState(old(uiState), LocalStreamPatch(roomClient.IsMicrophoneEnabled(), roomClient.IsCameraEnabled()))
      ensures uiState.isLocalMediaReady
    {
      PatchUiState(LocalStreamPatch(roomClient.IsMicrophoneEnabled(), roomClient.IsCameraEnabled()));
    }

    method OnRemoteStream()
      modifies this
      ensures uiState == old(uiState).(hasRemoteParticipant := true)
    {
      PatchUiState(RemoteStreamPatch);
    }

    /** An event without a state changes nothing. */
    method OnConnectionStateChange(state: Option<ConnectionState>)
      modifies this
      ensures state.None? ==> uiState == old(uiState)
      ensures state.Some? ==> uiState == MergeUiState(old(uiState), ConnectionStatePatch(state.value))
    {
      if state.None? {
        return;
      }
      PatchUiState(ConnectionStatePatch(state.value));
    }

    method OnRoomState(next: RoomState)
      modifies this
      ensures uiState == MergeUiState(old(uiState), RoomStatePatch(old(uiState), next))
    {
      uiState := MergeUiState(uiState, RoomStatePatch(uiState, next));
    }

    method OnRoomFull(reason: Option<string>)
      modifies this
      ensures uiState == MergeUiState(old(uiState), RoomFullPatch(reason))
    {
      PatchUiState(RoomFullPatch(reason));
    }

    method OnError()
      modifies this
      ensures uiState == old(uiState).(errorMessage := Some(WebrtcErrorMessage))
    {
      PatchUiState(ErrorPatch);
    }

    /** `hasLocalVideoSource` is whether the local video element still shows a stream. */
    method OnPeerLeft(hasLocalVideoSource: bool)
      requires Valid()
      modifies this
      ensures uiState ==
        MergeUiState(old(uiState), PeerLeftPatch(hasLocalVideoSource, roomClient.IsMicrophoneEnabled(), roomClient.IsCameraEnabled()))
    {
      PatchUiState(PeerLeftPatch(hasLocalVideoSource, roomClient.IsMicrophoneEnabled(), roomClient.IsCameraEnabled()));
    }

    method OnCallEnd()
      modifies this
      ensures uiState == InitialUiState
    {
      uiState := InitialUiState;
    }

    /**
     * joinRoom: show the attempt, let the client start the call, then record
     * how it ended. `pending` is the state shown while the client works.
     */
    method JoinRoom(socketOpened: bool) returns (ghost pending: UiState, ghost started: bool)
      requires Valid()
      modifies this, roomClient
      ensures Valid()
      ensures pending == MergeUiState(old(uiState), JoinStartPatch)
      ensures pending.isJoining && pending.status == Peer(Connecting) && pending.errorMessage.None?
      ensures uiState == JoinRoomState(old(uiState), started)
      ensures started ==> roomClient.SocketIsOpen()
      ensures old(roomClient.SocketIsOpen()) ==> started
      ensures roomClient.MediaUnchanged()
    {
      PatchUiState(JoinStartPatch);
      pending := uiState;
      var r := roomClient.StartCall(socketOpened);
      started := r.Pass?;
      if r.Pass? {
        PatchUiState(JoinedPatch);
      } else {
        PatchUiState(JoinFailedPatch);
      }
      PatchUiState(JoinSettledPatch);
    }

    /**
     * leaveRoom: reset the call fields, then end the call and tell the other
     * side. The teardown dispatches `endCall` before the client returns, and
     * the controller listens to it with onCallEnd, so the leave patch is
     * replaced at once by the initial state.
     */
    method LeaveRoom() returns (ghost patched: UiState)
      requires Valid()
      modifies this, roomClient
      ensures Valid()
      ensures patched == MergeUiState(old(uiState), LeavePatch)
      ensures uiState == InitialUiState
      ensures roomClient.peerConnection.None? && roomClient.localStream.None? && roomClient.localOutgoingStream.None?
      ensures roomClient.log ==
        old(roomClient.log) + Teardown.TeardownEffects(old(roomClient.TeardownInput(true, Some(Teardown.TeardownEvent.EndCall), false)))
      ensures Session.Emitted(Session.EndCallEvent) in roomClient.log[|old(roomClient.log)|..]
    {
      PatchUiState(LeavePatch);
      patched := uiState;
      roomClient.LeaveRoom(true);
      // The endCall event the teardown has just emitted reaches this listener.
      OnCallEnd();
    }

    /** toggleMicrophone: the page shows the state the client reports, if it has a microphone. */
    method ToggleMicrophone()
      requires Valid()
      modifies this, roomClient
      ensures Valid()
      ensures old(roomClient.IsMicrophoneEnabled()).None? ==> uiState == old(uiState)
      ensures old(roomClient.IsMicrophoneEnabled()).Some? ==>
        uiState == old(uiState).(isMicrophoneEnabled := !old(roomClient.IsMicrophoneEnabled()).value)
      ensures old(roomClient.IsMicrophoneEnabled()).Some? ==>
        roomClient.IsMicrophoneEnabled() == Some(uiState.isMicrophoneEnabled)
    {
      var nextState := roomClient.ToggleMicrophone();
      PatchUiState(MicrophonePatch(nextState));
    }

    /** toggleCamera: the page shows the state the client reports, if it has a camera. */
    method ToggleCamera()
      requires Valid()
      modifies this, roomClient
      ensures Valid()
      ensures old(roomClient.IsCameraEnabled()).None? ==> uiState == old(uiState)
      ensures old(roomClient.IsCameraEnabled()).Some? ==>
        uiState == old(uiState).(isCameraEnabled := !old(roomClient.IsCameraEnabled()).value)
      ensures old(roomClient.IsCameraEnabled()).Some? ==>
        roomClient.IsCameraEnabled() == Some(uiState.isCameraEnabled)
    {
      var nextState := roomClient.ToggleCamera();
      PatchUiState(CameraPatch(nextState));
    }
  }
}
