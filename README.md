# P2P room client — a Dafny model

This project models the client side of a two-person video room: the WebRTC
room client that talks to a signalling server over a WebSocket, captures
the camera and microphone, negotiates a peer connection and tears it down
again, and the React hook and view helpers that turn the client's events
into the state and labels of the room page.

The browser's objects are values. A media track is a record
`{kind, enabled, contentHint, stopCount}` kept in a registry keyed by its
id. A stream is the sequence of its track ids. The peer connection is a
value holding its senders (track and encodings), its descriptions and the
candidates it was given. The socket is an id with a ready state. Everything
the client does to the outside world — frames sent, events dispatched,
calls on the peer connection, the socket and the audio graph — is appended
to an action log. The client (`RoomClient.WebrtcRoomClient`) and the hook
(`RoomController.P2pRoomController`) are classes whose fields their methods
reassign. The helpers of the client's sibling files are methods with loops
over those values, proved against specification functions.

The central invariant (`RoomClient.MediaInvariant`, kept by every client
method through `Valid()`) says that the streams the client holds consist of
existing, never-stopped tracks, that every sender's track exists, and that
no track is ever stopped twice. The teardown stops each track once even when
both local streams list it, because its three stops share one set of
stopped ids.

Observations about the source, which the model follows as written:

- The client's `remoteStream` field is never assigned, only cleared, so the
  teardown's stop of the remote stream never finds a track in the client.
- The teardown clears `ontrack` and `onicecandidate`, but the listeners were
  added with `addEventListener`, so clearing those properties removes
  nothing. The model does not track listeners.
- When the Web Audio graph has no destination track, `createBoostedAudioTrack`
  (webrtc-room-client-local-media.ts:57-65) returns the raw track and
  abandons the `AudioContext` it created without closing it. The model's
  result then carries no audio context, just as the source's does.
- Attaching the outgoing tracks is idempotent only because track ids are
  never empty. The dedup set drops empty ids (`filter(Boolean)`), so a track
  with id `""` is missed by the dedup and `addTrack` is called for it again
  (`TrackControls.EmptyIdAttachedTwice`). The browser refuses that call
  (`InvalidAccessError`), while the model's `addTrack` (`NewSenders`), which
  does not refuse, would add a second sender.
- After a join the camera flag defaults to on when the client has no camera
  track (`onLocalStream`). After the peer leaves it defaults to off
  (`onPeerLeft`).
- The leave patch of `leaveRoom` does not last. The client's teardown
  dispatches `endCall` before `leaveRoom` returns, and the page's `onCallEnd`
  listener replaces the whole state with the initial one, room counts
  included (`RoomController.P2pRoomController.LeaveRoom`).

## Model

| member | source | states |
|---|---|---|
| WebSocketUrl.ParseUrl | src/features/p2p-room/model/webrtc-room-client-url.ts:3 | `new URL` fails exactly when the text before the first ':' is not a scheme, or the scheme is special (http, https, ws, wss, ftp) and what follows has no valid host or port, or the scheme is another one followed by "//" and an authority without a valid opaque host or port; a parsed protocol is a lower-case scheme plus ':', its remainder passes those checks, and the parts cover the input |
| WebSocketUrl.SchemeColon | src/features/p2p-room/model/webrtc-room-client-url.ts:3 | after a protocol the parser produces, the first ':' is the one that closes it |
| WebSocketUrl.SpecialNeedsHost | src/features/p2p-room/model/webrtc-room-client-url.ts:3 | a special protocol followed by a remainder without a valid host does not parse |
| WebSocketUrl.HostPortChecked | src/features/p2p-room/model/webrtc-room-client-url.ts:3 | after "//", a valid host, ':' and a digit string followed by a path, query, fragment or nothing is taken exactly when the port is at most 65535 |
| WebSocketUrl.PortChecked | src/features/p2p-room/model/webrtc-room-client-url.ts:3 | when the host part holds a ':', the host before it and the port after it are what is checked |
| WebSocketUrl.MissingHosts | src/features/p2p-room/model/webrtc-room-client-url.ts:3 | the remainders "" and "//" hold no host |
| WebSocketUrl.SpaceInHost | src/features/p2p-room/model/webrtc-room-client-url.ts:3 | a host with a space in it is refused |
| WebSocketUrl.PortOutOfRange | src/features/p2p-room/model/webrtc-room-client-url.ts:3 | a port of 99999 is refused |
| WebSocketUrl.SignallingAddressAccepted | src/features/p2p-room/model/webrtc-room-client-url.ts:3 | "//signal.example:8443/ws" has a valid host and port |
| WebSocketUrl.ParseSerialize | src/features/p2p-room/model/webrtc-room-client-url.ts:3-13 | serialising a parsed URL and parsing it again gives the same URL |
| WebSocketUrl.WebSocketProtocol | src/features/p2p-room/model/webrtc-room-client-url.ts:5-11 | http: becomes ws:, https: becomes wss:, any other protocol is kept |
| WebSocketUrl.SecurityPreserved | src/features/p2p-room/model/webrtc-room-client-url.ts:5-11 | the socket is wss: exactly when the page was https: or wss:, and ws: exactly when it was http: or ws: |
| WebSocketUrl.WebSocketProtocolIdempotent | src/features/p2p-room/model/webrtc-room-client-url.ts:5-11 | rewriting an already rewritten protocol changes nothing |
| WebSocketUrl.BuildWebSocketUrl | src/features/p2p-room/model/webrtc-room-client-url.ts:1-17 | an unparsable input is returned unchanged; otherwise the result is exactly the parsed protocol, rewritten (http: to ws:, https: to wss:), followed by the rest, and it parses back to the input with that protocol rewritten |
| WebSocketUrl.HttpBecomesWs | src/features/p2p-room/model/webrtc-room-client-url.ts:3-7 | an http URL with a valid host parses with its remainder intact and its socket protocol is ws: |
| WebSocketUrl.HttpsBecomesWss | src/features/p2p-room/model/webrtc-room-client-url.ts:3-11 | an https URL with a valid host parses with its remainder intact and its socket protocol is wss: |
| WebSocketUrl.HostlessHttpRefused | src/features/p2p-room/model/webrtc-room-client-url.ts:3-16 | an http or https URL without a valid host does not parse, so buildWebSocketUrl returns it as given |
| WebSocketUrl.HostMissingUrlsRefused | src/features/p2p-room/model/webrtc-room-client-url.ts:3-16 | "http:" and "https://" do not parse |
| WebSocketUrl.SpaceInHostUrlRefused | src/features/p2p-room/model/webrtc-room-client-url.ts:3-16 | "http://a b" does not parse |
| WebSocketUrl.PortOutOfRangeUrlRefused | src/features/p2p-room/model/webrtc-room-client-url.ts:3-16 | "http://h:99999" does not parse |
| WebSocketUrl.OpaqueAuthorityRefused | src/features/p2p-room/model/webrtc-room-client-url.ts:3-16 | another scheme followed by "//" and an authority without a valid opaque host or port does not parse, so the input is returned as given |
| WebSocketUrl.NoAuthorityKept | src/features/p2p-room/model/webrtc-room-client-url.ts:3 | another scheme not followed by "//" parses with its remainder intact |
| WebSocketUrl.OpaqueHostPortChecked | src/features/p2p-room/model/webrtc-room-client-url.ts:3 | an opaque `host:port` authority with a non-empty host is taken exactly when the port is at most 65535 |
| WebSocketUrl.EmptyOpaqueHost | src/features/p2p-room/model/webrtc-room-client-url.ts:3 | an opaque host may be empty, but not after credentials ("u@") |
| WebSocketUrl.OpaqueSpaceInHost | src/features/p2p-room/model/webrtc-room-client-url.ts:3 | a space is refused in an opaque host |
| WebSocketUrl.OpaqueSpaceUrlRefused | src/features/p2p-room/model/webrtc-room-client-url.ts:3-16 | "foo://a b" does not parse |
| WebSocketUrl.OpaquePortUrlRefused | src/features/p2p-room/model/webrtc-room-client-url.ts:3-16 | "foo://h:99999" does not parse |
| WebSocketUrl.RelativePathRefused | src/features/p2p-room/model/webrtc-room-client-url.ts:14-16 | a scheme-less path such as "/ws" does not parse, so it is kept as given |
| Media.HighQualityVideoConstraints | src/features/p2p-room/model/webrtc-room-client-media.ts:3-19 | width and height bounded with min <= ideal <= max, a capped frame rate, the front camera |
| Media.HighQualityAudioConstraints | src/features/p2p-room/model/webrtc-room-client-media.ts:21-35 | echo cancellation, noise suppression and auto gain on; the channel count capped in order |
| Media.SelectUserMediaApi | src/features/p2p-room/model/webrtc-room-client-media.ts:37-65 | None exactly when the browser offers no getUserMedia shape; otherwise an offered shape, and no more preferred shape is offered |
| Media.StopAllCompose | src/features/p2p-room/model/webrtc-room-client-teardown.ts:47-65 | stopping A, then the part of B not in A, is stopping A + B with each track stopped once |
| Media.StopStreamTracks | src/features/p2p-room/model/webrtc-room-client-media.ts:67-79 | with a shared set, every track of the stream not in the set is stopped once and added to it; without one, every entry is stopped; no stream changes nothing |
| TrackControls.ProfiledSender | src/features/p2p-room/model/webrtc-room-client-track-controls.ts:2-23 | a sender without a track is untouched; otherwise it keeps its track, has at least one encoding (one empty encoding when it had none), and its first encoding carries its kind's caps |
| TrackControls.ProfiledSenderIdempotent | src/features/p2p-room/model/webrtc-room-client-track-controls.ts:1-28 | applying the profile twice is applying it once |
| TrackControls.HintSenderTrack | src/features/p2p-room/model/webrtc-room-client-track-controls.ts:13-14 | one more sender's video track gets the 'detail' hint, extending the hinted registry by that sender |
| TrackControls.ApplySenderQualityProfile | src/features/p2p-room/model/webrtc-room-client-track-controls.ts:1-28 | each sender is replaced by its profiled form, nothing else of the peer connection changes, and the video tracks of the senders get the 'detail' hint |
| TrackControls.NewSenders | src/features/p2p-room/model/webrtc-room-client-track-controls.ts:48 | one new sender per track id, in order, without encodings |
| TrackControls.UnattachedMembers | src/features/p2p-room/model/webrtc-room-client-track-controls.ts:43-50 | a track is added exactly when it is in the outgoing stream and no sender carried it |
| TrackControls.AttachLocalTracksToPeerConnection | src/features/p2p-room/model/webrtc-room-client-track-controls.ts:30-53 | appends one sender per outgoing track not yet sent, in stream order, and returns how many |
| TrackControls.AttachCoversOutgoing | src/features/p2p-room/model/webrtc-room-client-track-controls.ts:30-53 | after attaching, every outgoing track is carried by some sender |
| TrackControls.AttachIdempotent | src/features/p2p-room/model/webrtc-room-client-track-controls.ts:34-46 | with non-empty track ids, a second attach of the same stream adds nothing |
| TrackControls.EmptyIdAttachedTwice | src/features/p2p-room/model/webrtc-room-client-track-controls.ts:34-39 | a track with the empty id is not recognised as attached, because the dedup set drops empty ids, so `addTrack` is called for it again |
| Browser.OfKindHead | src/features/p2p-room/model/webrtc-room-client-track-controls.ts:62-63 | the head of a stream's per-kind track list is the stream's first track of that kind |
| TrackControls.FirstEnabled | src/features/p2p-room/model/webrtc-room-client-track-controls.ts:62-63 | None exactly when the stream has no track of the kind; otherwise the flag of its first track of that kind, the one `getAudioTracks()[0]` / `getVideoTracks()[0]` returns |
| TrackControls.GetPrimaryTrackEnabled | src/features/p2p-room/model/webrtc-room-client-track-controls.ts:55-73 | None exactly when neither stream has a track of the kind; audio is read from the outgoing stream's first audio track, and from the capture stream's first one when the outgoing stream has none; video from the capture stream's first video track, and from the outgoing stream's when the capture stream has none |
| TrackControls.OfKindEnableAll | src/features/p2p-room/model/webrtc-room-client-track-controls.ts:90-97 | enabling or disabling tracks leaves every stream's per-kind track list as it was |
| TrackControls.EnableTrack | src/features/p2p-room/model/webrtc-room-client-track-controls.ts:93-98 | an unprocessed track gets the flag and joins the processed set, which stays written once per id |
| TrackControls.EnableStreamTracks | src/features/p2p-room/model/webrtc-room-client-track-controls.ts:90-100 | every track of the kind in the stream gets the flag and joins the processed set, each id written once |
| TrackControls.SetTrackEnabled | src/features/p2p-room/model/webrtc-room-client-track-controls.ts:75-104 | reports a track exactly when either stream has one of the kind; exactly those tracks get the flag, each written once, and no other track changes |
| Media.StopAllStep | src/features/p2p-room/model/webrtc-room-client-media.ts:73-77 | stopping one more unstopped track extends the stopped set by it |
| Teardown.StopSessionTracks | src/features/p2p-room/model/webrtc-room-client-teardown.ts:47-65 | the three stops share one set: the local streams' tracks (unless preserved) and the remote ones are stopped, each exactly once |
| Teardown.TeardownCallSessionResources | src/features/p2p-room/model/webrtc-room-client-teardown.ts:29-89 | the registry after stopping the targets once, the outside calls in order (timer clear, audio context close unless preserved, peer close, hangup if asked, event), and the resources left |
| Teardown.TeardownSettles | src/features/p2p-room/model/webrtc-room-client-teardown.ts:29-89 | a second teardown over what the first left stops no track, closes nothing and leaves the same resources |
| Teardown.PreserveKeepsLocalMedia | src/features/p2p-room/model/webrtc-room-client-teardown.ts:52-63 | preserving local media stops only the remote tracks, keeps both local streams and the audio graph, and closes no audio context |
| LocalMedia.Register | src/features/p2p-room/model/webrtc-room-client-local-media.ts:93-96 | the captured tracks join the registry, new and enabled, and the earlier tracks are untouched |
| LocalMedia.CreateBoostedAudioTrack | src/features/p2p-room/model/webrtc-room-client-local-media.ts:27-86 | an audio context and gain node exist exactly when boosting succeeded; the boosted track is new and marked as speech; on any failure the raw track comes back and the registry is unchanged |
| LocalMedia.CapturedOfKind | src/features/p2p-room/model/webrtc-room-client-local-media.ts:107-108 | lists every captured track of the kind, and only captured tracks |
| LocalMedia.CapturedOfKindExact | src/features/p2p-room/model/webrtc-room-client-local-media.ts:107-108 | with distinct ids a captured track is listed under a kind exactly when it is of that kind |
| LocalMedia.PrepareVideoTracks | src/features/p2p-room/model/webrtc-room-client-local-media.ts:110-113 | every camera track gets the 'detail' hint and the camera default |
| LocalMedia.CapturedStateFacts | src/features/p2p-room/model/webrtc-room-client-local-media.ts:107-122 | capture-side setup leaves the earlier tracks alone and sets up each captured one by its kind and position |
| LocalMedia.SetUpCapturedTracks | src/features/p2p-room/model/webrtc-room-client-local-media.ts:107-122 | picks the first microphone track and the camera tracks, and produces the capture-side registry |
| LocalMedia.AssembleOutgoingStream | src/features/p2p-room/model/webrtc-room-client-local-media.ts:124-133 | the outgoing stream is the camera tracks then the boosted (or raw) microphone track with the microphone default; only that track changes or is added |
| LocalMedia.AddOutgoingTracks | src/features/p2p-room/model/webrtc-room-client-local-media.ts:135-138 | each outgoing track gets its kind's default, and the peer connection, if any, gets one sender per outgoing track |
| LocalMedia.AttachOutgoingTracks | src/features/p2p-room/model/webrtc-room-client-local-media.ts:135-142 | the defaults and senders of the outgoing tracks, then the quality profile over all senders when there is a peer connection |
| LocalMedia.BuildLocalStreams | src/features/p2p-room/model/webrtc-room-client-local-media.ts:107-133 | the outgoing stream is the camera tracks in capture order followed by one microphone track when one was captured, boosted when boosting succeeded |
| LocalMedia.SessionFreshTracks | src/features/p2p-room/model/webrtc-room-client-local-media.ts:93-138 | the session only adds tracks nobody has stopped, and both its streams consist of such tracks |
| LocalMedia.SessionOutgoingDefaults | src/features/p2p-room/model/webrtc-room-client-local-media.ts:135-136 | every outgoing track carries its kind's default |
| LocalMedia.SessionCameraDefaults | src/features/p2p-room/model/webrtc-room-client-local-media.ts:110-113 | every captured camera track carries the camera default |
| LocalMedia.SessionReportsDefaults | src/features/p2p-room/model/webrtc-room-client-local-media.ts:88-161 | right after the session the microphone reads as its default once an outgoing audio track exists, the camera as its default once a camera track exists |
| LocalMedia.CreateLocalMediaSession | src/features/p2p-room/model/webrtc-room-client-local-media.ts:88-161 | fails as unavailable when the browser has no getUserMedia and as rejected when capture is refused, changing nothing; otherwise returns a session `SessionBuilt` describes: the capture stream holds the captured tracks; the outgoing stream holds the camera tracks, then one microphone track (boosted, or raw as fallback) iff one was captured; the audio context and gain node exist iff the microphone was boosted; the defaults are applied; the connection keeps its senders, profiled, and gets one profiled sender per outgoing track |
| IceDebug.SkipSpaces | src/features/p2p-room/model/webrtc-room-client-ice-debug.ts:9 | a suffix of the input that starts with no whitespace |
| IceDebug.TokenPrefix | src/features/p2p-room/model/webrtc-room-client-ice-debug.ts:9 | the longest whitespace-free prefix |
| IceDebug.Words | src/features/p2p-room/model/webrtc-room-client-ice-debug.ts:9 | every field of the split is a non-empty whitespace-free token |
| IceDebug.WordsOfToken | src/features/p2p-room/model/webrtc-room-client-ice-debug.ts:9 | a token followed by whitespace or nothing is the first field |
| IceDebug.WordsJoin | src/features/p2p-room/model/webrtc-room-client-ice-debug.ts:9 | splitting tokens joined by single spaces gives the tokens back |
| IceDebug.ParseNumber | src/features/p2p-room/model/webrtc-room-client-ice-debug.ts:29 | `Number` of a digit string is its decimal value; the empty string is no number here |
| IceDebug.DigitsValueOfNat | src/features/p2p-room/model/webrtc-room-client-ice-debug.ts:29 | reading back a written natural number gives the number |
| IceDebug.FirstIndex | src/features/p2p-room/model/webrtc-room-client-ice-debug.ts:18 | the position of the first field equal to the key, or None exactly when there is none |
| IceDebug.GetValue | src/features/p2p-room/model/webrtc-room-client-ice-debug.ts:17-21 | None exactly when the key is absent or its first occurrence is the last field; otherwise the field right after its first occurrence |
| IceDebug.StripCandidatePrefix | src/features/p2p-room/model/webrtc-room-client-ice-debug.ts:6-8 | a leading "candidate:" is removed, and nothing else |
| IceDebug.ParseIceCandidate | src/features/p2p-room/model/webrtc-room-client-ice-debug.ts:1-35 | None exactly for an absent or empty line; a line of fewer than eight fields is kept whole, prefix included |
| IceDebug.FieldsOfFormatted | src/features/p2p-room/model/webrtc-room-client-ice-debug.ts:6-9 | a formatted candidate line splits back into its attribute's fields |
| IceDebug.TypValue | src/features/p2p-room/model/webrtc-room-client-ice-debug.ts:30 | `typ` is found at its place and gives the candidate type |
| IceDebug.RelatedAddressValue | src/features/p2p-room/model/webrtc-room-client-ice-debug.ts:32 | `raddr` gives the related address exactly when the candidate has one |
| IceDebug.RelatedPortValue | src/features/p2p-room/model/webrtc-room-client-ice-debug.ts:33 | `rport` gives the related port exactly when the candidate has one |
| IceDebug.TcpTypeValue | src/features/p2p-room/model/webrtc-room-client-ice-debug.ts:31 | `tcptype` gives the TCP type exactly when the candidate has one |
| IceDebug.ParseFormattedCandidate | src/features/p2p-room/model/webrtc-room-client-ice-debug.ts:1-35 | parsing a well-formed candidate line gives back every field: positional ones as written, the transport lower-cased, the ports as numbers, the named attributes when present |
| IceDebug.ShortLineKeptRaw | src/features/p2p-room/model/webrtc-room-client-ice-debug.ts:11-15 | a line of fewer than eight fields is reported whole |
| IceDebug.Lookup | src/features/p2p-room/model/webrtc-room-client-ice-debug.ts:76 | the report with the id, or None exactly when no report has it |
| IceDebug.ReferencedPair | src/features/p2p-room/model/webrtc-room-client-ice-debug.ts:66-79 | only a transport report naming a non-empty id of a candidate pair of the snapshot yields a pair |
| IceDebug.FirstReferencing | src/features/p2p-room/model/webrtc-room-client-ice-debug.ts:65-80 | the first transport report that names a pair, None exactly when none does |
| IceDebug.FirstActive | src/features/p2p-room/model/webrtc-room-client-ice-debug.ts:82-100 | the first nominated, selected or succeeded pair, None exactly when there is none |
| IceDebug.SelectedPair | src/features/p2p-room/model/webrtc-room-client-ice-debug.ts:63-100 | a candidate pair of the snapshot; the one a transport names when any does, otherwise an active pair; None only when neither exists |
| IceDebug.SelectIcePair | src/features/p2p-room/model/webrtc-room-client-ice-debug.ts:63-100 | the two passes in snapshot order pick exactly the selected pair |
| SignalProcessor.TextOr | src/features/p2p-room/model/webrtc-room-client-signal-processor.ts:31-44 | the server's text when it sent one, otherwise the event's default ("Room is full" for `roomFull`, "Signaling server error" for `error`) |
| SignalProcessor.Notification | src/features/p2p-room/model/webrtc-room-client-signal-processor.ts:23-44 | room state, room full, status and error messages, and only they, dispatch an event |
| SignalProcessor.RoomStateForwarded | src/features/p2p-room/model/webrtc-room-client-signal-processor.ts:23-29 | a room state is forwarded with its counts as they are |
| SignalProcessor.NotificationDefaults | src/features/p2p-room/model/webrtc-room-client-signal-processor.ts:31-44 | without a text the defaults are dispatched; with one, the text |
| SignalProcessor.AnswerOffer | src/features/p2p-room/model/webrtc-room-client-signal-processor.ts:64-74 | the local tracks are attached, the offer becomes the remote description, the answer covers every sender's track and becomes the local description, and it is sent |
| SignalProcessor.HandleOffer | src/features/p2p-room/model/webrtc-room-client-signal-processor.ts:56-75 | a peer connection exists afterwards; the same capture-iff-no-stream outcome as preparing the media; on success a local stream exists and the log is exactly: connection creation when there was none, the capture's `localStream` event, remote description set, answer created, local description set, one `answer` send; a failure logs only the connection creation |
| SignalProcessor.ApplyAnswer | src/features/p2p-room/model/webrtc-room-client-signal-processor.ts:77-80 | without a peer connection nothing happens; otherwise the answer becomes its remote description |
| SignalProcessor.AddRemoteCandidate | src/features/p2p-room/model/webrtc-room-client-signal-processor.ts:82-85 | without a peer connection nothing happens; otherwise the candidate is added |
| SignalProcessor.ProcessSignalMessage | src/features/p2p-room/model/webrtc-room-client-signal-processor.ts:19-86 | each message runs its own branch; only offer and startOffer can fail, and only when media had to be captured; for those two the capture-iff-no-stream outcome and the exact log of `StartOffer` and `HandleOffer` hold; notifications dispatch their event and nothing else |
| SignalProcessor.HandleSignalMessage | src/features/p2p-room/model/webrtc-room-client.ts:101-130 | a failure becomes an `error` event carrying what was thrown, which is the last entry of the log |
| RoomClient.SendEffect | src/features/p2p-room/model/webrtc-room-client.ts:63-81 | a frame is sent exactly when the socket is open |
| RoomClient.ReadBackAfterEnable | src/features/p2p-room/model/webrtc-room-client.ts:256-266 | once every track of a kind was set, the primary track of that kind reads the value set |
| RoomClient.TeardownKeepsInvariant | src/features/p2p-room/model/webrtc-room-client.ts:280-313 | what a teardown leaves keeps the client's media invariant: no track stopped twice |
| RoomClient.SessionKeepsInvariant | src/features/p2p-room/model/webrtc-room-client.ts:327-344 | a new media session keeps the media invariant |
| RoomClient.OpenLocalMedia | src/features/p2p-room/model/webrtc-room-client.ts:327-344 | the session's failure cases as above; on success the session is built as `SessionBuilt` says and the new fields keep the media invariant |
| RoomClient.WebrtcRoomClient.constructor | src/features/p2p-room/model/webrtc-room-client.ts:43-47 | nothing is open, and the socket address is the server URL rewritten to ws(s) |
| RoomClient.WebrtcRoomClient.SendSignalMessage | src/features/p2p-room/model/webrtc-room-client.ts:111-113 | a frame is logged only on an open socket; nothing else changes |
| RoomClient.WebrtcRoomClient.Emit | src/features/p2p-room/model/webrtc-room-client.ts:63-81 | the event is appended to what the page receives; media and socket are untouched |
| RoomClient.WebrtcRoomClient.EnsurePeerConnection | src/features/p2p-room/model/webrtc-room-client.ts:49-61 | an existing connection is kept; otherwise exactly one is created |
| RoomClient.WebrtcRoomClient.Init | src/features/p2p-room/model/webrtc-room-client.ts:83-99 | an open socket or a pending init ends it with nothing done; otherwise exactly one socket is created and the init is pending |
| RoomClient.WebrtcRoomClient.SettleInit | src/features/p2p-room/model/webrtc-room-client.ts:131-150 | the socket opened, or it is closed, dropped and init throws; the init is no longer pending |
| RoomClient.WebrtcRoomClient.HandleSocketClose | src/features/p2p-room/model/webrtc-room-client.ts:95-99 | only the socket the client still holds is dropped |
| RoomClient.WebrtcRoomClient.StartCall | src/features/p2p-room/model/webrtc-room-client.ts:201-219 | fails to connect exactly when the socket was closed and did not open; on success the socket is open and `ready` is sent exactly when there was no peer connection; a failure sends nothing; media is untouched |
| RoomClient.WebrtcRoomClient.OnLocalIceCandidate | src/features/p2p-room/model/webrtc-room-client.ts:160-162 | a local candidate is sent, if the socket is open |
| RoomClient.WebrtcRoomClient.OnRemoteStream | src/features/p2p-room/model/webrtc-room-client.ts:164-166 | the page gets the remote stream; the client keeps no reference |
| RoomClient.WebrtcRoomClient.OnConnectionStateChange | src/features/p2p-room/model/webrtc-room-client.ts:168-180 | the page gets the state; on `connected` the stats timer id is kept |
| RoomClient.WebrtcRoomClient.AttachExistingLocalTracksToPeerConnection | src/features/p2p-room/model/webrtc-room-client.ts:185-199 | without both a peer connection and an outgoing stream nothing happens; otherwise the unsent outgoing tracks get senders, the quality profile runs only when one was added, and every outgoing track is then sent |
| RoomClient.WebrtcRoomClient.CreateLocalStream | src/features/p2p-room/model/webrtc-room-client.ts:327-344 | throws unavailable or rejected and changes nothing; otherwise the client's local stream, outgoing stream, audio context, gain node, registry and peer connection are those of a session built as `SessionBuilt` says, and exactly one `localStream` event is emitted |
| RoomClient.WebrtcRoomClient.PrepareLocalMedia | src/features/p2p-room/model/webrtc-room-client.ts:221-232 | a peer connection exists afterwards (the old one, or a new one); an existing local stream is kept and it passes; without one, media is captured: it fails with unavailable or rejected exactly when the browser has no getUserMedia or refuses, leaving the media as it was, and otherwise the client holds a session built as `SessionBuilt` says; the log is exactly the connection creation, when there was none, then the `localStream` event of a capture |
| RoomClient.WebrtcRoomClient.SendOffer | src/features/p2p-room/model/webrtc-room-client.ts:233-245 | the outgoing tracks are attached, the offer covers every sender's track, becomes the local description and is sent |
| RoomClient.WebrtcRoomClient.StartOffer | src/features/p2p-room/model/webrtc-room-client.ts:221-246 | the same capture-iff-no-stream outcome as preparing the media; on success a local stream exists and the log is exactly: connection creation when there was none, the capture's `localStream` event, offer created, local description set, one `offer` send; a failure logs only the connection creation |
| RoomClient.WebrtcRoomClient.IsMicrophoneEnabled | src/features/p2p-room/model/webrtc-room-client.ts:248-250 | None exactly when neither stream has an audio track; otherwise the state of the outgoing stream's first audio track, or the capture stream's first one when the outgoing stream has none |
| RoomClient.WebrtcRoomClient.IsCameraEnabled | src/features/p2p-room/model/webrtc-room-client.ts:252-254 | None exactly when neither stream has a video track; otherwise the state of the capture stream's first video track, or the outgoing stream's first one when the capture stream has none |
| RoomClient.WebrtcRoomClient.SetKindEnabled | src/features/p2p-room/model/webrtc-room-client.ts:256-266 | None exactly when there is no track of the kind; otherwise every such track, and no other, takes the value, which is read back |
| RoomClient.WebrtcRoomClient.SetMicrophoneEnabled | src/features/p2p-room/model/webrtc-room-client.ts:256-260 | as above for audio; the microphone then reads the value |
| RoomClient.WebrtcRoomClient.SetCameraEnabled | src/features/p2p-room/model/webrtc-room-client.ts:262-266 | as above for video; the camera then reads the value |
| RoomClient.WebrtcRoomClient.ToggleMicrophone | src/features/p2p-room/model/webrtc-room-client.ts:268-272 | without a microphone nothing changes; otherwise the opposite state is set and read back |
| RoomClient.WebrtcRoomClient.ToggleCamera | src/features/p2p-room/model/webrtc-room-client.ts:274-278 | without a camera nothing changes; otherwise the opposite state is set and read back |
| RoomClient.WebrtcRoomClient.TeardownCallSession | src/features/p2p-room/model/webrtc-room-client.ts:280-313 | the client's resources go through the teardown and take what it leaves; the socket is untouched |
| RoomClient.WebrtcRoomClient.HandlePeerLeft | src/features/p2p-room/model/webrtc-room-client.ts:315-317 | the call ends without a hangup and without stopping any track; local media stays |
| RoomClient.WebrtcRoomClient.EndCall | src/features/p2p-room/model/webrtc-room-client.ts:319-321 | every local track is stopped once, the media fields are cleared, the hangup is sent if asked |
| RoomClient.WebrtcRoomClient.LeaveRoom | src/features/p2p-room/model/webrtc-room-client.ts:323-325 | the same as endCall |
| RoomClient.WebrtcRoomClient.Destroy | src/features/p2p-room/model/webrtc-room-client.ts:354-363 | the peer connection and the socket are closed and dropped, a pending init forgotten |
| RoomClient.WebrtcRoomClient.CleanUp | src/features/p2p-room/model/webrtc-room-client.ts:346-352 | leaves the room telling the other side, then destroys: everything is released |
| UiStateMerge.MergeUiState | src/features/p2p-room/model/p2p-room-ui-state.ts:20-28 | every field the patch supplies has the patch's value afterwards, and the state is unchanged exactly when it already had all of them |
| UiStateMerge.MergeFields | src/features/p2p-room/model/p2p-room-ui-state.ts:20-28 | a field the patch supplies takes its value, every other field keeps its value |
| UiStateMerge.MergeEmpty | src/features/p2p-room/model/p2p-room-ui-state.ts:20-28 | merging nothing changes nothing |
| UiStateMerge.MergeIdempotent | src/features/p2p-room/model/p2p-room-ui-state.ts:20-28 | merging a patch twice is merging it once |
| UiStateMerge.MergeTwice | src/features/p2p-room/model/p2p-room-ui-state.ts:20-28 | two merges are one merge of the combined patch, the later patch winning |
| UiStateMerge.MergeFull | src/features/p2p-room/model/p2p-room-ui-state.ts:20-28 | a patch supplying every field replaces the state |
| UiStateMerge.InitialState | src/features/p2p-room/model/p2p-room-ui-state.ts:3-18 | `INITIAL_P2P_ROOM_UI_STATE` (the constant `InitialUiState`, from which the page starts and to which onCallEnd returns): out of any room, microphone on, camera off, in an empty room of two, with no error |
| RoomView.StatusLabel | src/features/p2p-room/utils/p2p-room-view.ts:16-34 | a full room wins, then being outside any room, then waiting, then connected; the raw status is shown exactly for new, failed and closed, or disconnected inside a room |
| RoomView.BuildP2pRoomView | src/features/p2p-room/utils/p2p-room-view.ts:36-66 | who is in the room and in the call; alone means joined with at most one person; the exit label is the room one exactly when alone; the call-state label is connected, alone or waiting, each exactly in its case |
| RoomView.JoinedAloneIffNoRemote | src/features/p2p-room/utils/p2p-room-view.ts:37-43 | inside a room, one is alone exactly when the other participant is not there |
| RoomView.InCallWinsOverAlone | src/features/p2p-room/utils/p2p-room-view.ts:41-55 | alone but connected shows the in-call label |
| RoomView.InitialView | src/features/p2p-room/utils/p2p-room-view.ts:36-66 | the initial state shows "not in room", nobody there, waiting |
| RoomController.RoomStateUpdate | src/features/p2p-room/hooks/use-p2p-room.ts:76-88 | a room update replaces the room; fewer than two people clears the remote participant |
| RoomController.ConnectionStateUpdate | src/features/p2p-room/hooks/use-p2p-room.ts:61-74 | the state becomes the status; only `connected` counts as the peer being there |
| RoomController.RoomFullUpdate | src/features/p2p-room/hooks/use-p2p-room.ts:90-101 | a full room ends the join with the prefixed reason, or the generic one |
| RoomController.PeerLeftUpdate | src/features/p2p-room/hooks/use-p2p-room.ts:107-122 | still in the room, waiting for the peer, no error; the media flags read again with their defaults |
| RoomController.JoinRoomOutcome | src/features/p2p-room/hooks/use-p2p-room.ts:132-147 | after a join one is no longer joining: in the room and waiting when the call started, out of it with the failure message otherwise |
| RoomController.LeaveUpdate | src/features/p2p-room/hooks/use-p2p-room.ts:149-158 | the leave patch on its own resets every call field and keeps the room counts and the join flag; it is the state only until the endCall event, which resets everything |
| RoomController.ToggleWithoutTrack | src/features/p2p-room/hooks/use-p2p-room.ts:162-174 | a toggle the client could not perform leaves the state as it was |
| RoomController.P2pRoomController.constructor | src/features/p2p-room/hooks/use-p2p-room.ts:23-24 | a new client with nothing open, and the initial state |
| RoomController.P2pRoomController.PatchUiState | src/features/p2p-room/hooks/use-p2p-room.ts:36-38 | the state becomes the merge of the patch |
| RoomController.P2pRoomController.OnLocalStream | src/features/p2p-room/hooks/use-p2p-room.ts:40-51 | media becomes ready and the flags are the client's, defaulting to on |
| RoomController.P2pRoomController.OnRemoteStream | src/features/p2p-room/hooks/use-p2p-room.ts:53-59 | only the remote participant flag is set |
| RoomController.P2pRoomController.OnConnectionStateChange | src/features/p2p-room/hooks/use-p2p-room.ts:61-74 | an event without a state changes nothing; otherwise the connection-state patch |
| RoomController.P2pRoomController.OnRoomState | src/features/p2p-room/hooks/use-p2p-room.ts:76-88 | the room-state patch over the previous state |
| RoomController.P2pRoomController.OnRoomFull | src/features/p2p-room/hooks/use-p2p-room.ts:90-101 | the room-full patch |
| RoomController.P2pRoomController.OnError | src/features/p2p-room/hooks/use-p2p-room.ts:103-105 | only the error message changes, to the connection-failure text |
| RoomController.P2pRoomController.OnPeerLeft | src/features/p2p-room/hooks/use-p2p-room.ts:107-122 | the peer-left patch with the client's current flags |
| RoomController.P2pRoomController.OnCallEnd | src/features/p2p-room/hooks/use-p2p-room.ts:124-130 | back to the initial state |
| RoomController.P2pRoomController.JoinRoom | src/features/p2p-room/hooks/use-p2p-room.ts:132-147 | joining and connecting is shown while the client works; it started only on an open socket, always when one was open, and the state ends as JoinRoomOutcome says |
| RoomController.P2pRoomController.LeaveRoom | src/features/p2p-room/hooks/use-p2p-room.ts:124-160 | the leave patch is applied, then the call ends telling the other side and releasing the local media; the client emits endCall, whose listener onCallEnd leaves the UI state exactly initial |
| RoomController.P2pRoomController.ToggleMicrophone | src/features/p2p-room/hooks/use-p2p-room.ts:162-167 | without a microphone nothing changes; otherwise the page shows the flipped state, which the client reads back |
| RoomController.P2pRoomController.ToggleCamera | src/features/p2p-room/hooks/use-p2p-room.ts:169-174 | without a camera nothing changes; otherwise the page shows the flipped state, which the client reads back |
| Clsx.ActiveKeysAppend | src/lib/clsx.ts:27-31 | the active keys of two runs of entries are the two lists one after the other |
| Clsx.ActiveKeysMembers | src/lib/clsx.ts:27-31 | a record names a key exactly when some entry sets it |
| Clsx.ClassesOfAllAppend | src/lib/clsx.ts:34-42 | the classes of two lists of values are the two lists one after the other |
| Clsx.NestedArrayFlattens | src/lib/clsx.ts:20-25 | a nested array contributes its classes in place |
| Clsx.JoinAppend | src/lib/clsx.ts:41 | joining two non-empty lists puts one space between their joins |
| Clsx.ClsxOfTwo | src/lib/clsx.ts:34-42 | two values give their classes with one space between when both name some |
| Clsx.ClsxOfNothing | src/lib/clsx.ts:34-42 | no values give the empty attribute |
| Clsx.ToClassName | src/lib/clsx.ts:10-32 | pushes exactly the classes the value names, in order: nothing for a falsy value, strings and numbers as text, arrays flattened, the keys a record sets |
| Clsx.Clsx | src/lib/clsx.ts:34-42 | the classes of all arguments, in order, joined by single spaces |

## Left out

- Timing and concurrency: every awaited step is one atomic step. Events that would arrive while `startCall` or a capture is awaited are not interleaved.
- The socket layer (webrtc-room-client-socket-connection.ts) is not part of this model.
- RoomClient.SendEffect: a send on a socket that is not open is modelled as dropped. In the browser only a closing or closed socket discards it; `send` on a socket that is still connecting throws `InvalidStateError`, which the model does not raise.
- The browser is abstract. Track ids, the stream the capture returns and the audio graph's result are parameters (`MediaEnv`, `BoostOutcome`). Their freshness is stated as a precondition, as the browser guarantees it.
- The 1.8 gain and the Web Audio nodes are not modelled. The boosted track is a new track marked as speech, with the context and gain node as opaque handles.
- SDP is opaque. Creating and setting descriptions always succeeds in the model; a rejected description is not modelled.
- `setParameters` may reject in the browser. The source only logs that, so the model has no failure outcome for it.
- Console logging is not modelled: `logIceCandidate`, the stats debug timer's reports, the device enumeration and the selected-pair report's output. Only the pair selection of the stats snapshot is.
- The stats timer is an id handed in by the caller; the interval's callbacks are not modelled.
- IceDebug.ParseNumber: `Number()` is limited to an optional sign followed by decimal digits. Everything else, such as fractions, exponents and hex, reads as NaN (None).
- Whitespace and lower-casing are ASCII only.
- TrackControls.NewSenders: the browser's refusal (`InvalidAccessError`) of a track that already has a sender is not modelled; the model adds another sender. With non-empty track ids the dedup never lets that call happen.
- WebSocketUrl.ParseUrl: for the special schemes the host check covers an empty host, the forbidden ASCII domain code points and a port above 65535; for the other schemes it covers the opaque host after "//" (the forbidden host code points, an empty host after credentials or before a port) and the same port bound. It does not cover IDNA mapping, percent-decoding, IPv4 number checks, IPv6 literals (a '[' is refused), the `file:` scheme, or the removal of tabs, newlines and surrounding spaces. The URL standard's normalisation of the rest (host case, default ports, a trailing '/') is not applied, so `BuildWebSocketUrl` returns the remainder as given.
- The video elements, `useVideoElements` and `useRoomClientLifecycle` are not part of this model. The controller's `OnPeerLeft` takes whether the local video element still shows a stream as a parameter.
- Event listener registration is not modelled. The teardown's clearing of `ontrack` and `onicecandidate` is not modelled either; since the listeners were added with `addEventListener`, that clearing has no effect in the source.
- Clsx: numbers are integers, so NaN and fractions are not modelled. A record is given as its entries in `Object.entries` order.
- RoomController.P2pRoomController.JoinRoom: states that the call started only on an open socket and always when one was already open. It does not state the converse for a socket that opened during the join.
- RoomClient.WebrtcRoomClient.OnConnectionStateChange: the stats timer's start is reduced to keeping the id it got.
