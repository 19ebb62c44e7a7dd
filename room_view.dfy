/**
 * What the room page shows for a UI state (p2p-room-view.ts): the status
 * label, whether the other participant is in the room or in the call, and
 * the labels of the waiting overlay, the exit button and the call state.
 */
module RoomView {
  import opened Common
  import opened Browser
  import opened RoomTypes
  import opened Texts
  import UiStateMerge

  datatype ViewState = ViewState(
    statusLabel: string,
    remoteParticipantInRoom: bool,
    remoteParticipantInCall: bool,
    isAloneInRoom: bool,
    waitingOverlayLabel: string,
    exitRoomButtonLabel: string,
    callStateLabel: string)

  /** The label texts are no raw status string. */
  lemma LabelsAreNoStatus(s: Status)
    ensures StatusText(s) != RoomBusy && StatusText(s) != NotInRoom
    ensures StatusText(s) != CallWaiting && StatusText(s) != CallConnected
  {
    assert RoomBusy[0] != StatusText(s)[0];
    assert NotInRoom[0] != StatusText(s)[0];
    assert CallWaiting[0] != StatusText(s)[0];
    assert CallConnected[0] != StatusText(s)[0];
  }

  /**
   * getStatusLabel: a full room first, then being outside any room, then
   * waiting (for the peer or for the connection), then connected; any other
   * status is shown as it is.
   */
  function StatusLabel(ui: UiState): (r: string)
    ensures ui.status == RoomFull ==> r == RoomBusy
    ensures ui.status != RoomFull && !ui.isRoomJoined && ui.status == Peer(Disconnected) ==> r == NotInRoom
    ensures ui.status == WaitingForPeer || ui.status == Peer(Connecting) ==> r == CallWaiting
    ensures ui.status == Peer(Connected) ==> r == CallConnected
    ensures r == StatusText(ui.status) <==>
      ui.status in {Peer(New), Peer(Failed), Peer(Closed)} || (ui.status == Peer(Disconnected) && ui.isRoomJoined)
  {
    LabelsAreNoStatus(ui.status);
    if ui.status == RoomFull then RoomBusy
    else if !ui.isRoomJoined && ui.status == Peer(Disconnected) then NotInRoom
    else if ui.status == WaitingForPeer || ui.status == Peer(Connecting) then CallWaiting
    else if ui.status == Peer(Connected) then CallConnected
    else StatusText(ui.status)
  }

  /** buildP2pRoomView. */
  function BuildP2pRoomView(ui: UiState): (v: ViewState)
    ensures v.statusLabel == StatusLabel(ui)
    ensures v.remoteParticipantInRoom <==>
      (ui.isRoomJoined && ui.roomState.participants > 1) || (!ui.isRoomJoined && ui.roomState.participants > 0)
    ensures v.remoteParticipantInCall <==> ui.hasRemoteParticipant || ui.status == Peer(Connected)
    ensures v.isAloneInRoom <==> ui.isRoomJoined && ui.roomState.participants <= 1
    ensures v.waitingOverlayLabel == if ui.roomState.participants <= 1 then CallWaitingAlone else CallWaitingPeerJoin
    ensures v.exitRoomButtonLabel == ExitRoomButton <==> v.isAloneInRoom
    ensures v.exitRoomButtonLabel in {ExitRoomButton, ExitCallButton}
    ensures v.callStateLabel == CallStateConnected <==> v.remoteParticipantInCall
    ensures v.callStateLabel == CallStateAlone <==> !v.remoteParticipantInCall && v.isAloneInRoom
    ensures v.callStateLabel == CallStateWaiting <==> !v.remoteParticipantInCall && !v.isAloneInRoom
  {
    var remoteParticipantInRoom :=
      if ui.isRoomJoined then ui.roomState.participants > 1 else ui.roomState.participants > 0;
    var remoteParticipantInCall := ui.hasRemoteParticipant || ui.status == Peer(Connected);
    var isAloneInRoom := ui.isRoomJoined && ui.roomState.participants <= 1;
    var waitingOverlayLabel := if ui.roomState.participants <= 1 then CallWaitingAlone else CallWaitingPeerJoin;
    var exitRoomButtonLabel := if isAloneInRoom then ExitRoomButton else ExitCallButton;
    var callStateLabel :=
      if remoteParticipantInCall then CallStateConnected
      else if isAloneInRoom then CallStateAlone
      else CallStateWaiting;
    assert ExitRoomButton != ExitCallButton by {
      assert |ExitRoomButton| != |ExitCallButton|;
    }
    assert CallStateConnected != CallStateAlone && CallStateConnected != CallStateWaiting by {
      assert |CallStateConnected| != |CallStateAlone|;
      assert CallStateConnected[1] != CallStateWaiting[1];
    }
    assert CallStateAlone != CallStateWaiting by {
      assert CallStateAlone[0] != CallStateWaiting[0];
    }
    ViewState(StatusLabel(ui), remoteParticipantInRoom, remoteParticipantInCall, isAloneInRoom,
              waitingOverlayLabel, exitRoomButtonLabel, callStateLabel)
  }

  /** Inside a room, the other participant is there exactly when one is not alone. */
  lemma JoinedAloneIffNoRemote(ui: UiState)
    requires ui.isRoomJoined
    ensures BuildP2pRoomView(ui).isAloneInRoom <==> !BuildP2pRoomView(ui).remoteParticipantInRoom
  {
  }

  /** Someone alone in the room who is nevertheless in a call is shown as in the call. */
  lemma InCallWinsOverAlone(ui: UiState)
    requires ui.isRoomJoined && ui.roomState.participants <= 1 && ui.status == Peer(Connected)
    ensures BuildP2pRoomView(ui).isAloneInRoom
    ensures BuildP2pRoomView(ui).callStateLabel == CallStateConnected
  {
  }

  /** The page before any join: outside the room, nobody there, waiting for a peer. */
  lemma InitialView()
    ensures BuildP2pRoomView(UiStateMerge.InitialUiState) ==
      ViewState(NotInRoom, false, false, false, CallWaitingAlone, ExitCallButton, CallStateWaiting)
  {
  }
}
