/**
 * Abstract records standing for the browser objects the room client drives:
 * media tracks, the peer connection and the signalling socket. Only the parts
 * of their state that the client reads or writes are kept.
 */
module Browser {
  import opened Common

  type TrackId = string

  datatype TrackKind = Audio | Video

  /**
   * A MediaStreamTrack. `stopCount` counts the calls of `stop()` made on it,
   * so that "stopped at most once" can be stated.
   */
  datatype Track = Track(kind: TrackKind, enabled: bool, contentHint: string, stopCount: nat)

  /** Every track object the page holds, by id: one id is one physical track. */
  type Tracks = map<TrackId, Track>

  /** A MediaStream: the ids of its tracks, in `getTracks()` order. */
  type Stream = seq<TrackId>

  /** Every track of `s` exists in the registry. */
  predicate InRegistry(tracks: Tracks, s: Stream) {
    forall i :: 0 <= i < |s| ==> s[i] in tracks
  }

  /** `stream?.getTracks()` filtered by kind: `getAudioTracks()` / `getVideoTracks()`. */
  function OfKind(tracks: Tracks, s: Stream, kind: TrackKind): (r: seq<TrackId>)
    requires InRegistry(tracks, s)
    ensures forall x :: x in r <==> x in s && tracks[x].kind == kind
    ensures |r| <= |s|
  {
    if s == [] then []
    else (if tracks[s[0]].kind == kind then [s[0]] else []) + OfKind(tracks, s[1..], kind)
  }

  /** `s[i]` is the first track of `kind` in `s`: the one `getAudioTracks()[0]` / `getVideoTracks()[0]` returns. */
  predicate FirstOfKindAt(tracks: Tracks, s: Stream, kind: TrackKind, i: int)
    requires InRegistry(tracks, s)
  {
    && 0 <= i < |s|
    && tracks[s[i]].kind == kind
    && forall j :: 0 <= j < i ==> tracks[s[j]].kind != kind
  }

  /** The head of the per-kind list is the stream's first track of that kind. */
  lemma {:induction false} OfKindHead(tracks: Tracks, s: Stream, kind: TrackKind)
    requires InRegistry(tracks, s)
    requires OfKind(tracks, s, kind) != []
    ensures exists i :: FirstOfKindAt(tracks, s, kind, i) && OfKind(tracks, s, kind)[0] == s[i]
  {
    assert s != [];
    if tracks[s[0]].kind == kind {
      assert FirstOfKindAt(tracks, s, kind, 0);
    } else {
      var rest := s[1..];
      assert InRegistry(tracks, rest);
      assert OfKind(tracks, s, kind) == OfKind(tracks, rest, kind);
      OfKindHead(tracks, rest, kind);
      var k :| FirstOfKindAt(tracks, rest, kind, k) && OfKind(tracks, rest, kind)[0] == rest[k];
      forall j | 0 <= j < k + 1
        ensures tracks[s[j]].kind != kind
      {
        if j > 0 {
          assert s[j] == rest[j - 1];
        }
      }
      assert FirstOfKindAt(tracks, s, kind, k + 1);
    }
  }

  /** An SDP payload; its content is opaque to the client. */
  type Sdp = string

  /** RTCIceCandidateInit. */
  datatype IceCandidateInit = IceCandidateInit(candidate: Option<string>, sdpMid: Option<string>, sdpMLineIndex: Option<int>)

  /** RTCRtpEncodingParameters, restricted to the fields the client sets. */
  datatype Encoding = Encoding(maxBitrate: Option<nat>, maxFramerate: Option<nat>, scaleResolutionDownBy: Option<nat>)

  /** An RTCRtpSender: its track (if any) and its `encodings` parameter (absent or a list). */
  datatype Sender = Sender(track: Option<TrackId>, encodings: Option<seq<Encoding>>)

  /** An open RTCPeerConnection. */
  datatype PeerState = PeerState(
    senders: seq<Sender>,
    localDescription: Option<Sdp>,
    remoteDescription: Option<Sdp>,
    remoteCandidates: seq<IceCandidateInit>)

  /** A peer connection as `new RTCPeerConnection(...)` returns it. */
  function NewPeer(): PeerState {
    PeerState([], None, None, [])
  }

  /** The ids of the tracks the senders carry. */
  function SenderTrackIds(senders: seq<Sender>): set<TrackId> {
    set i | 0 <= i < |senders| && senders[i].track.Some? :: senders[i].track.value
  }

  /** RTCPeerConnectionState. */
  datatype ConnectionState = New | Connecting | Connected | Disconnected | Failed | Closed

  /** The ready states a socket held by the client can be in. */
  datatype ReadyState = SocketConnecting | SocketOpen

  /** A WebSocket; `id` tells apart the sockets one client opens over time. */
  datatype WebSocket = WebSocket(id: nat, readyState: ReadyState)

  /** An opaque browser handle (AudioContext, GainNode, interval id). */
  type Handle = nat
}
