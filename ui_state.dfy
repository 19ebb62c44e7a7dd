/**
 * The page's room state and its update rule (p2p-room-ui-state.ts): the
 * initial state, and `mergeUiState`, which overwrites exactly the fields a
 * partial record supplies.
 */
module UiStateMerge {
  import opened Common
  import opened Browser
  import opened RoomTypes

  /** DEFAULT_ROOM_STATE: nobody in a room of two. */
  const DefaultRoomState: RoomState := RoomState(0, 2)

  /** INITIAL_P2P_ROOM_UI_STATE. */
  const InitialUiState: UiState := UiState(
    status := Peer(Disconnected),
    isJoining := false,
    isRoomJoined := false,
    hasRemoteParticipant := false,
    isLocalMediaReady := false,
    isMicrophoneEnabled := true,
    isCameraEnabled := false,
    roomState := DefaultRoomState,
    errorMessage := None)

  /**
   * `Partial<TP2pRoomUiState>`: a field is either left out (None) or given a
   * value; `errorMessage` may be given the value `null` (Some(None)).
   */
  datatype UiPatch = UiPatch(
    status: Option<Status>,
    isJoining: Option<bool>,
    isRoomJoined: Option<bool>,
    hasRemoteParticipant: Option<bool>,
    isLocalMediaReady: Option<bool>,
    isMicrophoneEnabled: Option<bool>,
    isCameraEnabled: Option<bool>,
    roomState: Option<RoomState>,
    errorMessage: Option<Option<string>>)

  /** The record literal `{}`. */
  const EmptyPatch: UiPatch := UiPatch(None, None, None, None, None, None, None, None, None)

  /** Every field the patch supplies already has the patch's value in `s`. */
  predicate Holds(s: UiState, patch: UiPatch) {
    && (patch.status.Some? ==> s.status == patch.status.value)
    && (patch.isJoining.Some? ==> s.isJoining == patch.isJoining.value)
    && (patch.isRoomJoined.Some? ==> s.isRoomJoined == patch.isRoomJoined.value)
    && (patch.hasRemoteParticipant.Some? ==> s.hasRemoteParticipant == patch.hasRemoteParticipant.value)
    && (patch.isLocalMediaReady.Some? ==> s.isLocalMediaReady == patch.isLocalMediaReady.value)
    && (patch.isMicrophoneEnabled.Some? ==> s.isMicrophoneEnabled == patch.isMicrophoneEnabled.value)
    && (patch.isCameraEnabled.Some? ==> s.isCameraEnabled == patch.isCameraEnabled.value)
    && (patch.roomState.Some? ==> s.roomState == patch.roomState.value)
    && (patch.errorMessage.Some? ==> s.errorMessage == patch.errorMessage.value)
  }

  /**
   * `{ ...previousState, ...patch }`: the result holds the patch, and it is
   * the previous state exactly when that already held the patch.
   */
  function MergeUiState(previous: UiState, patch: UiPatch): (r: UiState)
    ensures Holds(r, patch)
    ensures r == previous <==> Holds(previous, patch)
  {
    UiState(
      status := patch.status.GetOr(previous.status),
      isJoining := patch.isJoining.GetOr(previous.isJoining),
      isRoomJoined := patch.isRoomJoined.GetOr(previous.isRoomJoined),
      hasRemoteParticipant := patch.hasRemoteParticipant.GetOr(previous.hasRemoteParticipant),
      isLocalMediaReady := patch.isLocalMediaReady.GetOr(previous.isLocalMediaReady),
      isMicrophoneEnabled := patch.isMicrophoneEnabled.GetOr(previous.isMicrophoneEnabled),
      isCameraEnabled := patch.isCameraEnabled.GetOr(previous.isCameraEnabled),
      roomState := patch.roomState.GetOr(previous.roomState),
      errorMessage := patch.errorMessage.GetOr(previous.errorMessage))
  }

  /** Every field the patch supplies takes the patch's value; every other field keeps its value. */
  lemma MergeFields(previous: UiState, patch: UiPatch)
    ensures patch.status.Some? ==> MergeUiState(previous, patch).status == patch.status.value
    ensures patch.isJoining.Some? ==> MergeUiState(previous, patch).isJoining == patch.isJoining.value
    ensures patch.isRoomJoined.Some? ==> MergeUiState(previous, patch).isRoomJoined == patch.isRoomJoined.value
    ensures patch.hasRemoteParticipant.Some? ==> MergeUiState(previous, patch).hasRemoteParticipant == patch.hasRemoteParticipant.value
    ensures patch.isLocalMediaReady.Some? ==> MergeUiState(previous, patch).isLocalMediaReady == patch.isLocalMediaReady.value
    ensures patch.isMicrophoneEnabled.Some? ==> MergeUiState(previous, patch).isMicrophoneEnabled == patch.isMicrophoneEnabled.value
    ensures patch.isCameraEnabled.Some? ==> MergeUiState(previous, patch).isCameraEnabled == patch.isCameraEnabled.value
    ensures patch.roomState.Some? ==> MergeUiState(previous, patch).roomState == patch.roomState.value
    ensures patch.errorMessage.Some? ==> MergeUiState(previous, patch).errorMessage == patch.errorMessage.value
    ensures patch.status.None? ==> MergeUiState(previous, patch).status == previous.status
    ensures patch.isJoining.None? ==> MergeUiState(previous, patch).isJoining == previous.isJoining
    ensures patch.isRoomJoined.None? ==> MergeUiState(previous, patch).isRoomJoined == previous.isRoomJoined
    ensures patch.hasRemoteParticipant.None? ==> MergeUiState(previous, patch).hasRemoteParticipant == previous.hasRemoteParticipant
    ensures patch.isLocalMediaReady.None? ==> MergeUiState(previous, patch).isLocalMediaReady == previous.isLocalMediaReady
    ensures patch.isMicrophoneEnabled.None? ==> MergeUiState(previous, patch).isMicrophoneEnabled == previous.isMicrophoneEnabled
    ensures patch.isCameraEnabled.None? ==> MergeUiState(previous, patch).isCameraEnabled == previous.isCameraEnabled
    ensures patch.roomState.None? ==> MergeUiState(previous, patch).roomState == previous.roomState
    ensures patch.errorMessage.None? ==> MergeUiState(previous, patch).errorMessage == previous.errorMessage
  {
  }

  /** The fields of `second` where it has them, otherwise those of `first`. */
  function Then(first: UiPatch, second: UiPatch): UiPatch {
    UiPatch(
      if second.status.Some? then second.status else first.status,
      if second.isJoining.Some? then second.isJoining else first.isJoining,
      if second.isRoomJoined.Some? then second.isRoomJoined else first.isRoomJoined,
      if second.hasRemoteParticipant.Some? then second.hasRemoteParticipant else first.hasRemoteParticipant,
      if second.isLocalMediaReady.Some? then second.isLocalMediaReady else first.isLocalMediaReady,
      if second.isMicrophoneEnabled.Some? then second.isMicrophoneEnabled else first.isMicrophoneEnabled,
      if second.isCameraEnabled.Some? then second.isCameraEnabled else first.isCameraEnabled,
      if second.roomState.Some? then second.roomState else first.roomState,
      if second.errorMessage.Some? then second.errorMessage else first.errorMessage)
  }

  /** The patch that sets every field to the value it has in `s`. */
  function FullPatch(s: UiState): UiPatch {
    UiPatch(Some(s.status), Some(s.isJoining), Some(s.isRoomJoined), Some(s.hasRemoteParticipant),
            Some(s.isLocalMediaReady), Some(s.isMicrophoneEnabled), Some(s.isCameraEnabled),
            Some(s.roomState), Some(s.errorMessage))
  }

  /** Merging nothing gives back an equal state. */
  lemma MergeEmpty(s: UiState)
    ensures MergeUiState(s, EmptyPatch) == s
  {
  }

  /** Merging the same patch twice is merging it once. */
  lemma MergeIdempotent(s: UiState, patch: UiPatch)
    ensures MergeUiState(MergeUiState(s, patch), patch) == MergeUiState(s, patch)
  {
  }

  /** Two merges in a row are one merge of the patches combined, the later one winning. */
  lemma MergeTwice(s: UiState, first: UiPatch, second: UiPatch)
    ensures MergeUiState(MergeUiState(s, first), second) == MergeUiState(s, Then(first, second))
  {
  }

  /** A patch supplying every field replaces the state whatever it was. */
  lemma MergeFull(s: UiState, t: UiState)
    ensures MergeUiState(s, FullPatch(t)) == t
  {
  }

  /** The initial state: out of any room, microphone on, camera off, an empty room of two, no error. */
  lemma InitialState()
    ensures InitialUiState.status == Peer(Disconnected) && StatusText(InitialUiState.status) == "disconnected"
    ensures !InitialUiState.isJoining && !InitialUiState.isRoomJoined && !InitialUiState.hasRemoteParticipant
    ensures !InitialUiState.isLocalMediaReady
    ensures InitialUiState.isMicrophoneEnabled && !InitialUiState.isCameraEnabled
    ensures InitialUiState.roomState.participants == 0 && InitialUiState.roomState.capacity == 2
    ensures InitialUiState.errorMessage.None?
  {
  }
}
