/**
 * Building the local media session (webrtc-room-client-local-media.ts):
 * capture camera and microphone, route the microphone through a gain stage
 * when the browser has Web Audio, assemble the outgoing stream, and hand its
 * tracks to the peer connection.
 */
module LocalMedia {
  import opened Common
  import opened Browser
  import opened Session
  import Media
  import TrackControls

  /** A track as getUserMedia delivers it: live, enabled, without a content hint. */
  datatype CapturedTrack = CapturedTrack(id: TrackId, kind: TrackKind)

  function NewTrack(kind: TrackKind): Track {
    Track(kind, true, "", 0)
  }

  /** How building the gain stage goes in this browser. */
  datatype BoostOutcome =
    | NoAudioContextConstructor                                   // neither AudioContext nor webkitAudioContext
    | NoDestinationTrack(createdContext: Handle)                  // the destination stream has no audio track
    | Threw                                                       // a Web Audio call threw
    | Boosted(track: TrackId, audioContext: Handle, gainNode: Handle)

  /** What the browser does when asked for media. */
  datatype MediaEnv = MediaEnv(
    apis: Media.MediaApis,
    granted: Option<seq<CapturedTrack>>,   // None: getUserMedia rejects
    boost: BoostOutcome)

  datatype BoostedAudioTrack = BoostedAudioTrack(track: TrackId, audioContext: Option<Handle>, outgoingGainNode: Option<Handle>)

  datatype LocalMediaSession = LocalMediaSession(
    localStream: Stream,
    localOutgoingStream: Stream,
    audioContext: Option<Handle>,
    outgoingGainNode: Option<Handle>)

  datatype SessionOutcome = SessionFailed(error: ClientError) | SessionCreated(session: LocalMediaSession)

  function CapturedIds(captured: seq<CapturedTrack>): (r: seq<TrackId>)
    ensures |r| == |captured|
    ensures forall i :: 0 <= i < |captured| ==> r[i] == captured[i].id
  {
    seq(|captured|, i requires 0 <= i < |captured| => captured[i].id)
  }

  /** The browser hands out new, distinct track ids. */
  predicate CapturedFresh(tracks: Tracks, captured: seq<CapturedTrack>) {
    && Distinct(CapturedIds(captured))
    && forall i :: 0 <= i < |captured| ==> captured[i].id !in tracks
  }

  /** The registry once the captured tracks exist. */
  function Register(tracks: Tracks, captured: seq<CapturedTrack>): (r: Tracks)
    requires CapturedFresh(tracks, captured)
    ensures forall id :: id in r <==> id in tracks || id in CapturedIds(captured)
    ensures forall id :: id in tracks ==> r[id] == tracks[id]
    ensures forall i :: 0 <= i < |captured| ==> r[captured[i].id] == NewTrack(captured[i].kind)
    decreases |captured|
  {
    if captured == [] then tracks
    else
      var c := captured[0];
      assert CapturedIds(captured[1..]) == CapturedIds(captured)[1..];
      assert forall i :: 0 <= i < |captured| - 1 ==> captured[1..][i].id != c.id by {
        forall i | 0 <= i < |captured| - 1 ensures captured[1..][i].id != c.id {
          assert CapturedIds(captured)[0] != CapturedIds(captured)[i + 1];
        }
      }
      Register(tracks[c.id := NewTrack(c.kind)], captured[1..])
  }

  /** The environment hands out ids that do not clash with existing or captured tracks. */
  predicate EnvFresh(tracks: Tracks, env: MediaEnv) {
    && (env.granted.Some? ==> CapturedFresh(tracks, env.granted.value))
    && (env.boost.Boosted? ==>
          (env.boost.track !in tracks
           && (env.granted.Some? ==> env.boost.track !in CapturedIds(env.granted.value))))
  }

  /**
   * createBoostedAudioTrack: the gain-boosted microphone track with its audio
   * graph, or the raw track with no graph whenever any step fails. The
   * boosted track is marked as speech.
   */
  method CreateBoostedAudioTrack(tracks: Tracks, fallbackTrack: TrackId, outcome: BoostOutcome)
    returns (r: BoostedAudioTrack, tracks': Tracks)
    requires outcome.Boosted? ==> outcome.track !in tracks
    ensures r.audioContext.Some? <==> outcome.Boosted?
    ensures r.outgoingGainNode.Some? <==> outcome.Boosted?
    ensures outcome.Boosted? ==>
      && r == BoostedAudioTrack(outcome.track, Some(outcome.audioContext), Some(outcome.gainNode))
      && tracks' == tracks[outcome.track := Track(Audio, true, "speech", 0)]
    ensures !outcome.Boosted? ==> r.track == fallbackTrack && tracks' == tracks
  {
    match outcome
    case NoAudioContextConstructor =>
      r, tracks' := BoostedAudioTrack(fallbackTrack, None, None), tracks;
    case NoDestinationTrack(_) =>
      r, tracks' := BoostedAudioTrack(fallbackTrack, None, None), tracks;
    case Threw =>
      r, tracks' := BoostedAudioTrack(fallbackTrack, None, None), tracks;
    case Boosted(track, audioContext, gainNode) =>
      tracks' := tracks[track := NewTrack(Audio).(contentHint := "speech")];
      r := BoostedAudioTrack(track, Some(audioContext), Some(gainNode));
  }

  /** `getAudioTracks()` / `getVideoTracks()` of the captured stream, in capture order. */
  function CapturedOfKind(captured: seq<CapturedTrack>, kind: TrackKind): (r: seq<TrackId>)
    ensures |r| <= |captured|
    ensures forall i :: 0 <= i < |captured| && captured[i].kind == kind ==> captured[i].id in r
    ensures forall x :: x in r ==> x in CapturedIds(captured)
  {
    if captured == [] then []
    else
      var rest := CapturedOfKind(captured[1..], kind);
      assert forall i :: 1 <= i < |captured| ==> captured[i] == captured[1..][i - 1];
      (if captured[0].kind == kind then [captured[0].id] else []) + rest
  }

  /** The first captured microphone track, the one `const [localAudioTrack] = ...` picks. */
  function FirstAudio(captured: seq<CapturedTrack>): Option<TrackId> {
    var audios := CapturedOfKind(captured, Audio);
    if audios == [] then None else Some(audios[0])
  }

  /**
   * A captured track once the session is built: a camera track carries the
   * camera default and the 'detail' hint, the first microphone track the
   * microphone default, any further microphone track is left as captured.
   */
  function CapturedSetup(c: CapturedTrack, firstAudio: Option<TrackId>, mic: bool, cam: bool): Track {
    if c.kind == Video then Track(Video, cam, "detail", 0)
    else if firstAudio == Some(c.id) then Track(Audio, mic, "", 0)
    else NewTrack(Audio)
  }

  /** The registry once the camera tracks carry the 'detail' hint and the camera default. */
  function PreparedVideo(tracks: Tracks, ids: set<TrackId>, cam: bool): (r: Tracks)
    ensures r.Keys == tracks.Keys
  {
    map id | id in tracks :: if id in ids then tracks[id].(contentHint := "detail", enabled := cam) else tracks[id]
  }

  /** The loop over the captured camera tracks. */
  method PrepareVideoTracks(tracks: Tracks, videos: seq<TrackId>, cam: bool) returns (tracks': Tracks)
    requires forall x :: x in videos ==> x in tracks
    ensures tracks' == PreparedVideo(tracks, Elems(videos), cam)
  {
    tracks' := tracks;
    for i := 0 to |videos|
      invariant tracks' == PreparedVideo(tracks, Elems(videos[..i]), cam)
    {
      var id := videos[i];
      assert videos[..i + 1] == videos[..i] + [id];
      assert Elems(videos[..i + 1]) == Elems(videos[..i]) + {id};
      tracks' := tracks'[id := tracks'[id].(contentHint := "detail", enabled := cam)];
    }
    assert videos[..|videos|] == videos;
  }

  /** The registry right after capture-side setup. */
  function CapturedState(tracks: Tracks, captured: seq<CapturedTrack>, mic: bool, cam: bool): Tracks
    requires CapturedFresh(tracks, captured)
  {
    var prepared := PreparedVideo(Register(tracks, captured), Elems(CapturedOfKind(captured, Video)), cam);
    match FirstAudio(captured)
    case None => prepared
    case Some(a) => prepared[a := prepared[a].(enabled := mic)]
  }

  lemma {:induction false} CapturedIdsElems(captured: seq<CapturedTrack>, i: nat)
    requires i < |captured|
    ensures captured[i].id in CapturedIds(captured)
  {
  }

  /** With distinct ids, a captured track is listed under a kind iff it is of that kind. */
  lemma {:induction false} CapturedOfKindExact(captured: seq<CapturedTrack>, kind: TrackKind, i: nat)
    requires Distinct(CapturedIds(captured)) && i < |captured|
    ensures captured[i].id in CapturedOfKind(captured, kind) <==> captured[i].kind == kind
  {
    if i > 0 {
      assert CapturedIds(captured[1..]) == CapturedIds(captured)[1..];
      CapturedOfKindExact(captured[1..], kind, i - 1);
      assert CapturedIds(captured)[0] != CapturedIds(captured)[i];
    } else if captured[0].kind != kind {
      assert CapturedIds(captured[1..]) == CapturedIds(captured)[1..];
    }
  }

  /** Capture-side setup leaves earlier tracks alone and sets up each captured one as CapturedSetup says. */
  lemma CapturedStateFacts(tracks: Tracks, captured: seq<CapturedTrack>, mic: bool, cam: bool)
    requires CapturedFresh(tracks, captured)
    ensures var r := CapturedState(tracks, captured, mic, cam);
      && (forall id :: id in r <==> id in tracks || id in CapturedIds(captured))
      && (forall id :: id in tracks ==> r[id] == tracks[id])
      && (forall i :: 0 <= i < |captured| ==> r[captured[i].id] == CapturedSetup(captured[i], FirstAudio(captured), mic, cam))
  {
    var ids := CapturedIds(captured);
    var videos := CapturedOfKind(captured, Video);
    var r := CapturedState(tracks, captured, mic, cam);
    forall id | id in tracks
      ensures id !in ids
    {
      assert forall i :: 0 <= i < |ids| ==> ids[i] != id;
    }
    forall i | 0 <= i < |captured|
      ensures r[captured[i].id] == CapturedSetup(captured[i], FirstAudio(captured), mic, cam)
    {
      CapturedOfKindExact(captured, Video, i);
      CapturedOfKindExact(captured, Audio, i);
    }
  }

  /** Capture-side setup: the camera tracks get the 'detail' hint and the camera default, the first microphone track the microphone default. */
  method SetUpCapturedTracks(tracks: Tracks, captured: seq<CapturedTrack>, mic: bool, cam: bool)
    returns (tracks': Tracks, localAudioTrack: Option<TrackId>, localVideoTracks: seq<TrackId>)
    requires CapturedFresh(tracks, captured)
    ensures tracks' == CapturedState(tracks, captured, mic, cam)
    ensures localAudioTrack == FirstAudio(captured)
    ensures localVideoTracks == CapturedOfKind(captured, Video)
  {
    tracks' := Register(tracks, captured);
    localAudioTrack := FirstAudio(captured);
    localVideoTracks := CapturedOfKind(captured, Video);
    tracks' := PrepareVideoTracks(tracks', localVideoTracks, cam);
    if localAudioTrack.Some? {
      var a := localAudioTrack.value;
      assert a in CapturedOfKind(captured, Audio);
      tracks' := tracks'[a := tracks'[a].(enabled := mic)];
    }
  }

  /**
   * The outgoing stream: the camera tracks, then the boosted microphone
   * track, or the raw one when boosting fails, with the microphone default.
   */
  method AssembleOutgoingStream(tracks: Tracks, localVideoTracks: seq<TrackId>, localAudioTrack: Option<TrackId>,
                                boost: BoostOutcome, mic: bool)
    returns (tracks': Tracks, outgoing: Stream, audioContext: Option<Handle>, outgoingGainNode: Option<Handle>)
    requires InRegistry(tracks, localVideoTracks)
    requires localAudioTrack.Some? ==> localAudioTrack.value in tracks
    requires boost.Boosted? ==> boost.track !in tracks
    ensures forall id :: id in tracks' <==> id in tracks || (localAudioTrack.Some? && boost.Boosted? && id == boost.track)
    ensures forall id :: id in tracks && Some(id) != localAudioTrack ==> tracks'[id] == tracks[id]
    ensures localAudioTrack.Some? ==>
      (tracks'[localAudioTrack.value] == tracks[localAudioTrack.value].(enabled := mic)
       || (boost.Boosted? && tracks'[localAudioTrack.value] == tracks[localAudioTrack.value]))
    ensures InRegistry(tracks', outgoing)
    ensures forall x :: x in outgoing ==>
      x in localVideoTracks || Some(x) == localAudioTrack || (localAudioTrack.Some? && boost.Boosted? && x == boost.track)
    ensures |outgoing| == |localVideoTracks| + (if localAudioTrack.None? then 0 else 1)
    ensures outgoing[..|localVideoTracks|] == localVideoTracks
    ensures localAudioTrack.Some? && !boost.Boosted? ==> outgoing[|localVideoTracks|] == localAudioTrack.value
    ensures localAudioTrack.Some? && boost.Boosted? ==>
      outgoing[|localVideoTracks|] == boost.track && tracks'[boost.track] == Track(Audio, mic, "speech", 0)
    ensures audioContext.Some? <==> localAudioTrack.Some? && boost.Boosted?
    ensures outgoingGainNode.Some? <==> audioContext.Some?
  {
    tracks' := tracks;
    outgoing := localVideoTracks;
    audioContext, outgoingGainNode := None, None;
    if localAudioTrack.Some? {
      var boosted;
      boosted, tracks' := CreateBoostedAudioTrack(tracks', localAudioTrack.value, boost);
      tracks' := tracks'[boosted.track := tracks'[boosted.track].(enabled := mic)];
      audioContext := boosted.audioContext;
      outgoingGainNode := boosted.outgoingGainNode;
      outgoing := outgoing + [boosted.track];
    }
  }

  /** `enabled` by kind: the microphone default for audio, the camera default for video. */
  function DefaultEnabled(kind: TrackKind, mic: bool, cam: bool): bool {
    if kind == Audio then mic else cam
  }

  function EnabledByKind(tracks: Tracks, ids: set<TrackId>, mic: bool, cam: bool): (r: Tracks)
    ensures r.Keys == tracks.Keys
  {
    map id | id in tracks :: if id in ids then tracks[id].(enabled := DefaultEnabled(tracks[id].kind, mic, cam)) else tracks[id]
  }

  /** The loop over the outgoing tracks: apply the defaults and add each to the peer connection. */
  method AddOutgoingTracks(tracks: Tracks, outgoing: Stream, pc: Option<PeerState>, mic: bool, cam: bool)
    returns (tracks': Tracks, pc': Option<PeerState>)
    requires InRegistry(tracks, outgoing)
    ensures tracks' == EnabledByKind(tracks, Elems(outgoing), mic, cam)
    ensures pc.None? ==> pc' == None
    ensures pc.Some? ==> pc' == Some(pc.value.(senders := pc.value.senders + TrackControls.NewSenders(outgoing)))
  {
    tracks' := tracks;
    var senders := if pc.Some? then pc.value.senders else [];
    ghost var base := senders;
    assert TrackControls.NewSenders(outgoing[..0]) == [];
    for i := 0 to |outgoing|
      invariant tracks' == EnabledByKind(tracks, Elems(outgoing[..i]), mic, cam)
      invariant senders == base + TrackControls.NewSenders(outgoing[..i])
    {
      var id := outgoing[i];
      assert outgoing[..i + 1] == outgoing[..i] + [id];
      assert Elems(outgoing[..i + 1]) == Elems(outgoing[..i]) + {id};
      assert TrackControls.NewSenders(outgoing[..i + 1]) == TrackControls.NewSenders(outgoing[..i]) + [Sender(Some(id), None)];
      tracks' := tracks'[id := tracks'[id].(enabled := DefaultEnabled(tracks'[id].kind, mic, cam))];
      senders := senders + [Sender(Some(id), None)];
    }
    assert outgoing[..|outgoing|] == outgoing;
    pc' := if pc.Some? then Some(pc.value.(senders := senders)) else None;
  }

  /** Stages three and four of the session on the registry: outgoing defaults, then the sender profile's hints. */
  function FinishRegistry(tracks: Tracks, outgoing: Stream, mic: bool, cam: bool, senders: Option<seq<Sender>>): Tracks {
    var enabled := EnabledByKind(tracks, Elems(outgoing), mic, cam);
    if senders.Some? then TrackControls.HintVideoSenders(enabled, senders.value) else enabled
  }

  lemma FinishRegistryAt(tracks: Tracks, outgoing: Stream, mic: bool, cam: bool, senders: Option<seq<Sender>>, id: TrackId)
    requires id in tracks
    ensures var r := FinishRegistry(tracks, outgoing, mic, cam, senders);
      && id in r
      && r[id].kind == tracks[id].kind
      && r[id].stopCount == tracks[id].stopCount
      && r[id].enabled == (if id in outgoing then DefaultEnabled(tracks[id].kind, mic, cam) else tracks[id].enabled)
      && r[id].contentHint ==
           (if senders.Some? && id in SenderTrackIds(senders.value) && tracks[id].kind == Video then "detail"
            else tracks[id].contentHint)
  {
  }

  /** The profile reads only a sender track's kind. */
  lemma ProfiledSenderSameKind(t1: Tracks, t2: Tracks, s: Sender)
    requires s.track.Some? ==> s.track.value in t1 && s.track.value in t2 && t1[s.track.value].kind == t2[s.track.value].kind
    ensures TrackControls.ProfiledSender(t1, s) == TrackControls.ProfiledSender(t2, s)
  {
  }

  /**
   * The tail of the session: each outgoing track gets its kind's default
   * and a sender, then the quality profile runs over all senders.
   */
  method AttachOutgoingTracks(tracks: Tracks, outgoing: Stream, pc: Option<PeerState>, mic: bool, cam: bool)
    returns (tracks': Tracks, pc': Option<PeerState>)
    requires InRegistry(tracks, outgoing)
    requires pc.Some? ==> TrackControls.SendersInRegistry(tracks, pc.value.senders)
    ensures tracks' == FinishRegistry(tracks, outgoing, mic, cam,
                                      if pc.Some? then Some(pc.value.senders + TrackControls.NewSenders(outgoing)) else None)
    ensures pc.None? ==> pc' == None
    ensures pc.Some? ==>
      var before := pc.value.senders;
      && pc'.Some?
      && pc'.value == pc.value.(senders := pc'.value.senders)
      && |pc'.value.senders| == |before| + |outgoing|
      && (forall i :: 0 <= i < |before| ==> pc'.value.senders[i] == TrackControls.ProfiledSender(tracks', before[i]))
      && (forall j :: 0 <= j < |outgoing| ==>
            pc'.value.senders[|before| + j] == TrackControls.ProfiledSender(tracks', Sender(Some(outgoing[j]), None)))
  {
    tracks', pc' := AddOutgoingTracks(tracks, outgoing, pc, mic, cam);
    ghost var t3 := tracks';
    if pc'.Some? {
      ghost var senders := pc'.value.senders;
      var profiled;
      profiled, tracks' := TrackControls.ApplySenderQualityProfile(pc'.value, tracks');
      pc' := Some(profiled);
      forall k | 0 <= k < |senders|
        ensures pc'.value.senders[k] == TrackControls.ProfiledSender(tracks', senders[k])
      {
        if senders[k].track.Some? {
          FinishRegistryAt(tracks, outgoing, mic, cam, Some(senders), senders[k].track.value);
        }
        ProfiledSenderSameKind(t3, tracks', senders[k]);
      }
      forall j | 0 <= j < |outgoing|
        ensures senders[|pc.value.senders| + j] == Sender(Some(outgoing[j]), None)
      {
        var added := TrackControls.NewSenders(outgoing);
        assert added[j] == Sender(Some(outgoing[j]), None);
      }
    }
  }

  /** The registry once the streams are built, as BuildLocalStreams leaves it. */
  ghost predicate RegistryBuilt(tracks: Tracks, captured: seq<CapturedTrack>, boost: BoostOutcome, mic: bool, cam: bool,
                          built: Tracks, outgoing: Stream)
  {
    && (forall id :: id in built <==>
          id in tracks || id in CapturedIds(captured) || (FirstAudio(captured).Some? && boost.Boosted? && id == boost.track))
    && (forall id :: id in tracks ==> built[id] == tracks[id])
    && (forall i :: 0 <= i < |captured| ==> built[captured[i].id] == CapturedSetup(captured[i], FirstAudio(captured), mic, cam))
    && (FirstAudio(captured).Some? && boost.Boosted? ==> built[boost.track] == Track(Audio, mic, "speech", 0))
    && InRegistry(built, outgoing)
    && (forall x :: x in outgoing ==>
          x in CapturedOfKind(captured, Video) || Some(x) == FirstAudio(captured)
          || (FirstAudio(captured).Some? && boost.Boosted? && x == boost.track))
  }

  lemma SessionExistingTracks(tracks: Tracks, captured: seq<CapturedTrack>, boost: BoostOutcome, mic: bool, cam: bool,
                              built: Tracks, outgoing: Stream, senders: Option<seq<Sender>>)
    requires CapturedFresh(tracks, captured)
    requires boost.Boosted? ==> boost.track !in tracks
    requires RegistryBuilt(tracks, captured, boost, mic, cam, built, outgoing)
    ensures var r := FinishRegistry(built, outgoing, mic, cam, senders);
      forall id :: id in tracks ==> id in r && r[id].(contentHint := tracks[id].contentHint) == tracks[id]
  {
    var ids := CapturedIds(captured);
    if FirstAudio(captured).Some? {
      assert FirstAudio(captured).value in CapturedOfKind(captured, Audio);
    }
    forall id | id in tracks
      ensures var r := FinishRegistry(built, outgoing, mic, cam, senders);
        id in r && r[id].(contentHint := tracks[id].contentHint) == tracks[id]
    {
      assert id !in ids by {
        assert forall k :: 0 <= k < |ids| ==> ids[k] != id;
      }
      assert id !in outgoing;
      FinishRegistryAt(built, outgoing, mic, cam, senders, id);
    }
  }

  lemma SessionCapturedTracks(tracks: Tracks, captured: seq<CapturedTrack>, boost: BoostOutcome, mic: bool, cam: bool,
                              built: Tracks, outgoing: Stream, senders: Option<seq<Sender>>)
    requires CapturedFresh(tracks, captured)
    requires boost.Boosted? ==> boost.track !in CapturedIds(captured)
    requires RegistryBuilt(tracks, captured, boost, mic, cam, built, outgoing)
    ensures var r := FinishRegistry(built, outgoing, mic, cam, senders);
      forall i :: 0 <= i < |captured| ==> r[captured[i].id] == CapturedSetup(captured[i], FirstAudio(captured), mic, cam)
  {
    forall i | 0 <= i < |captured|
      ensures var r := FinishRegistry(built, outgoing, mic, cam, senders);
        r[captured[i].id] == CapturedSetup(captured[i], FirstAudio(captured), mic, cam)
    {
      assert captured[i].id in CapturedIds(captured);
      FinishRegistryAt(built, outgoing, mic, cam, senders, captured[i].id);
      CapturedOfKindExact(captured, Video, i);
      CapturedOfKindExact(captured, Audio, i);
    }
  }

  lemma SessionBoostedTrack(tracks: Tracks, captured: seq<CapturedTrack>, boost: BoostOutcome, mic: bool, cam: bool,
                            built: Tracks, outgoing: Stream, senders: Option<seq<Sender>>)
    requires RegistryBuilt(tracks, captured, boost, mic, cam, built, outgoing)
    ensures var r := FinishRegistry(built, outgoing, mic, cam, senders);
      && InRegistry(r, CapturedIds(captured)) && InRegistry(r, outgoing)
      && (FirstAudio(captured).Some? && boost.Boosted? ==> r[boost.track] == Track(Audio, mic, "speech", 0))
  {
    if FirstAudio(captured).Some? && boost.Boosted? {
      FinishRegistryAt(built, outgoing, mic, cam, senders, boost.track);
    }
  }

  /** One track the session added: a captured track or the boosted track, neither stopped yet. */
  lemma NewTrackUnstopped(tracks: Tracks, captured: seq<CapturedTrack>, boost: BoostOutcome, mic: bool, cam: bool,
                          built: Tracks, id: TrackId)
    requires id in CapturedIds(captured) || (FirstAudio(captured).Some? && boost.Boosted? && id == boost.track)
    requires SetUpAsCaptured(built, captured, FirstAudio(captured), mic, cam)
    requires FirstAudio(captured).Some? && boost.Boosted? ==>
      boost.track in built && built[boost.track] == Track(Audio, mic, "speech", 0)
    requires id in built
    ensures built[id].stopCount == 0
  {
    if id in CapturedIds(captured) {
      var i := CapturedIndex(captured, id);
    }
  }

  /** One outgoing track is one the session added, so it was not in the registry before. */
  lemma OutgoingTrackIsNew(tracks: Tracks, captured: seq<CapturedTrack>, boost: BoostOutcome, x: TrackId)
    requires CapturedFresh(tracks, captured)
    requires boost.Boosted? ==> boost.track !in tracks
    requires x in CapturedOfKind(captured, Video) || Some(x) == FirstAudio(captured)
      || (FirstAudio(captured).Some? && boost.Boosted? && x == boost.track)
    ensures x !in tracks
  {
    if x in CapturedOfKind(captured, Video) {
      var i := CapturedOfKindWitness(captured, Video, x);
    } else if Some(x) == FirstAudio(captured) {
      var i := CapturedOfKindWitness(captured, Audio, x);
    }
  }

  /**
   * The session only adds tracks nobody has stopped, and both of its streams
   * consist of such new tracks.
   */
  lemma SessionFreshTracks(tracks: Tracks, captured: seq<CapturedTrack>, boost: BoostOutcome, mic: bool, cam: bool,
                           built: Tracks, outgoing: Stream, senders: Option<seq<Sender>>)
    requires CapturedFresh(tracks, captured)
    requires boost.Boosted? ==> boost.track !in tracks
    requires RegistryBuilt(tracks, captured, boost, mic, cam, built, outgoing)
    ensures var r := FinishRegistry(built, outgoing, mic, cam, senders);
      && (forall id :: id in r && id !in tracks ==> r[id].stopCount == 0)
      && (forall i :: 0 <= i < |outgoing| ==> outgoing[i] !in tracks)
      && (forall i :: 0 <= i < |captured| ==> CapturedIds(captured)[i] !in tracks)
  {
    var r := FinishRegistry(built, outgoing, mic, cam, senders);
    assert InRegistry(built, CapturedIds(captured));
    SetUpAsCapturedIntro(built, captured, FirstAudio(captured), mic, cam);
    forall id | id in r && id !in tracks
      ensures r[id].stopCount == 0
    {
      FinishRegistryAt(built, outgoing, mic, cam, senders, id);
      NewTrackUnstopped(tracks, captured, boost, mic, cam, built, id);
    }
    forall i | 0 <= i < |outgoing|
      ensures outgoing[i] !in tracks
    {
      OutgoingTrackIsNew(tracks, captured, boost, outgoing[i]);
    }
  }

  /**
   * The streams of the session: capture-side setup, then the outgoing
   * stream with the microphone track boosted when possible.
   */
  method BuildLocalStreams(tracks: Tracks, captured: seq<CapturedTrack>, boost: BoostOutcome, mic: bool, cam: bool)
    returns (tracks': Tracks, outgoing: Stream, audioContext: Option<Handle>, outgoingGainNode: Option<Handle>)
    requires CapturedFresh(tracks, captured)
    requires boost.Boosted? ==> boost.track !in tracks && boost.track !in CapturedIds(captured)
    ensures RegistryBuilt(tracks, captured, boost, mic, cam, tracks', outgoing)
    ensures |outgoing| == |CapturedOfKind(captured, Video)| + (if FirstAudio(captured).None? then 0 else 1)
    ensures outgoing[..|CapturedOfKind(captured, Video)|] == CapturedOfKind(captured, Video)
    ensures FirstAudio(captured).Some? && !boost.Boosted? ==> outgoing[|CapturedOfKind(captured, Video)|] == FirstAudio(captured).value
    ensures FirstAudio(captured).Some? && boost.Boosted? ==>
      outgoing[|CapturedOfKind(captured, Video)|] == boost.track && tracks'[boost.track] == Track(Audio, mic, "speech", 0)
    ensures audioContext.Some? <==> FirstAudio(captured).Some? && boost.Boosted?
    ensures outgoingGainNode.Some? <==> audioContext.Some?
  {
    var localAudioTrack, localVideoTracks;
    tracks', localAudioTrack, localVideoTracks := SetUpCapturedTracks(tracks, captured, mic, cam);
    CapturedStateFacts(tracks, captured, mic, cam);
    if localAudioTrack.Some? {
      assert localAudioTrack.value in CapturedOfKind(captured, Audio);
    }
    ghost var t1 := tracks';
    tracks', outgoing, audioContext, outgoingGainNode :=
      AssembleOutgoingStream(tracks', localVideoTracks, localAudioTrack, boost, mic);
    forall i | 0 <= i < |captured|
      ensures tracks'[captured[i].id] == CapturedSetup(captured[i], FirstAudio(captured), mic, cam)
    {
      CapturedOfKindExact(captured, Audio, i);
    }
  }

  /**
   * The microphone and camera state right after the session is built:
   * every outgoing track carries its kind's default, and so does every
   * camera track of the capture stream.
   */
  ghost predicate DefaultsApplied(tracks: Tracks, s: LocalMediaSession, mic: bool, cam: bool) {
    && InRegistry(tracks, s.localStream)
    && InRegistry(tracks, s.localOutgoingStream)
    && (forall id :: id in s.localOutgoingStream ==> tracks[id].enabled == DefaultEnabled(tracks[id].kind, mic, cam))
    && (forall id :: id in s.localStream && tracks[id].kind == Video ==> tracks[id].enabled == cam)
  }

  lemma SessionCameraDefaults(tracks: Tracks, captured: seq<CapturedTrack>, mic: bool, cam: bool)
    requires InRegistry(tracks, CapturedIds(captured))
    requires forall i :: 0 <= i < |captured| ==> tracks[captured[i].id] == CapturedSetup(captured[i], FirstAudio(captured), mic, cam)
    ensures forall id :: id in CapturedIds(captured) && tracks[id].kind == Video ==> tracks[id].enabled == cam
  {
    forall id | id in CapturedIds(captured) && tracks[id].kind == Video
      ensures tracks[id].enabled == cam
    {
      var i :| 0 <= i < |captured| && CapturedIds(captured)[i] == id;
    }
  }

  /** Where a captured id sits in the capture stream. */
  lemma CapturedIndex(captured: seq<CapturedTrack>, id: TrackId) returns (i: nat)
    requires id in CapturedIds(captured)
    ensures i < |captured| && captured[i].id == id
  {
    var ids := CapturedIds(captured);
    var k :| 0 <= k < |ids| && ids[k] == id;
    i := k;
  }

  /** A track `getAudioTracks()` / `getVideoTracks()` lists was captured with that kind. */
  lemma {:induction false} CapturedOfKindWitness(captured: seq<CapturedTrack>, kind: TrackKind, id: TrackId) returns (i: nat)
    requires id in CapturedOfKind(captured, kind)
    ensures i < |captured| && captured[i].id == id && captured[i].kind == kind
  {
    if captured[0].kind == kind && captured[0].id == id {
      i := 0;
    } else {
      var j := CapturedOfKindWitness(captured[1..], kind, id);
      i := j + 1;
    }
  }

  /**
   * Every captured track is in the registry, set up as CapturedSetup says
   * with `first` as the first microphone track.
   */
  ghost predicate SetUpAsCaptured(tracks: Tracks, captured: seq<CapturedTrack>, first: Option<TrackId>, mic: bool, cam: bool) {
    forall i :: 0 <= i < |captured| ==>
      captured[i].id in tracks && tracks[captured[i].id] == CapturedSetup(captured[i], first, mic, cam)
  }

  lemma SetUpAsCapturedIntro(tracks: Tracks, captured: seq<CapturedTrack>, first: Option<TrackId>, mic: bool, cam: bool)
    requires InRegistry(tracks, CapturedIds(captured))
    requires forall i :: 0 <= i < |captured| ==> tracks[captured[i].id] == CapturedSetup(captured[i], first, mic, cam)
    ensures SetUpAsCaptured(tracks, captured, first, mic, cam)
  {
    forall i | 0 <= i < |captured|
      ensures captured[i].id in tracks
    {
      assert CapturedIds(captured)[i] == captured[i].id;
    }
  }

  lemma SessionOutgoingDefaults(tracks: Tracks, captured: seq<CapturedTrack>, first: Option<TrackId>,
                                boost: BoostOutcome, mic: bool, cam: bool, outgoing: Stream)
    requires first == FirstAudio(captured)
    requires SetUpAsCaptured(tracks, captured, first, mic, cam)
    requires forall x :: x in outgoing ==>
      x in CapturedOfKind(captured, Video) || Some(x) == first || (first.Some? && boost.Boosted? && x == boost.track)
    requires first.Some? && boost.Boosted? ==>
      boost.track in tracks && tracks[boost.track] == Track(Audio, mic, "speech", 0)
    ensures forall id :: id in outgoing ==> id in tracks && tracks[id].enabled == DefaultEnabled(tracks[id].kind, mic, cam)
  {
    if first.Some? {
      var i := CapturedOfKindWitness(captured, Audio, first.value);
    }
    forall id | id in outgoing
      ensures id in tracks && tracks[id].enabled == DefaultEnabled(tracks[id].kind, mic, cam)
    {
      if first.Some? && boost.Boosted? && id == boost.track {
      } else if Some(id) == first {
      } else {
        var i := CapturedOfKindWitness(captured, Video, id);
      }
    }
  }

  /**
   * Right after the session is built, the client reports the defaults: the
   * microphone reads as `mic` once an outgoing audio track exists, the
   * camera as `cam` once any camera track exists.
   */
  lemma SessionReportsDefaults(tracks: Tracks, s: LocalMediaSession, mic: bool, cam: bool)
    requires DefaultsApplied(tracks, s, mic, cam)
    ensures TrackControls.Targets(tracks, Audio, Some(s.localOutgoingStream)) != {} ==>
      TrackControls.GetPrimaryTrackEnabled(Audio, tracks, Some(s.localStream), Some(s.localOutgoingStream)) == Some(mic)
    ensures TrackControls.Targets(tracks, Video, Some(s.localStream)) + TrackControls.Targets(tracks, Video, Some(s.localOutgoingStream)) != {} ==>
      TrackControls.GetPrimaryTrackEnabled(Video, tracks, Some(s.localStream), Some(s.localOutgoingStream)) == Some(cam)
  {
  }

  /**
   * What a created session is, given the registry `tracks` and the peer
   * connection `pc` it started from and what the browser `captured`:
   * - the capture stream holds the captured tracks, set up as CapturedSetup
   *   says;
   * - the outgoing stream holds the camera tracks, then one microphone track
   *   iff a microphone was captured: the boosted track when the gain stage
   *   was built, the raw one otherwise;
   * - the audio context and gain node exist iff the microphone was boosted;
   * - the defaults are applied;
   * - a peer connection, when there is one, keeps its other fields, its old
   *   senders with the quality profile applied, and gets one profiled sender
   *   per outgoing track, in order.
   */
  ghost predicate SessionBuilt(tracks: Tracks, pc: Option<PeerState>, captured: seq<CapturedTrack>, boost: BoostOutcome,
                               mic: bool, cam: bool, s: LocalMediaSession, tracks': Tracks, pc': Option<PeerState>)
  {
    var videos := CapturedOfKind(captured, Video);
    && s.localStream == CapturedIds(captured)
    && InRegistry(tracks', s.localStream) && InRegistry(tracks', s.localOutgoingStream)
    && (forall i :: 0 <= i < |captured| ==> tracks'[captured[i].id] == CapturedSetup(captured[i], FirstAudio(captured), mic, cam))
    && |s.localOutgoingStream| == |videos| + (if FirstAudio(captured).None? then 0 else 1)
    && s.localOutgoingStream[..|videos|] == videos
    && (FirstAudio(captured).Some? && !boost.Boosted? ==> s.localOutgoingStream[|videos|] == FirstAudio(captured).value)
    && (FirstAudio(captured).Some? && boost.Boosted? ==>
          s.localOutgoingStream[|videos|] == boost.track && tracks'[boost.track] == Track(Audio, mic, "speech", 0))
    && (s.audioContext.Some? <==> FirstAudio(captured).Some? && boost.Boosted?)
    && (s.outgoingGainNode.Some? <==> s.audioContext.Some?)
    && DefaultsApplied(tracks', s, mic, cam)
    && (pc.None? ==> pc' == None)
    && (pc.Some? ==>
          var out := s.localOutgoingStream;
          var before := pc.value.senders;
          && pc'.Some?
          && pc'.value == pc.value.(senders := pc'.value.senders)
          && |pc'.value.senders| == |before| + |out|
          && TrackControls.SendersInRegistry(tracks', before)
          && (forall i :: 0 <= i < |before| ==> pc'.value.senders[i] == TrackControls.ProfiledSender(tracks', before[i]))
          && (forall j :: 0 <= j < |out| ==>
                pc'.value.senders[|before| + j] == TrackControls.ProfiledSender(tracks', Sender(Some(out[j]), None))))
  }

  /**
   * createLocalMediaSession. Fails with MediaUnavailable when the browser
   * offers no getUserMedia and MediaRejected when capture is refused;
   * otherwise the capture stream holds the captured tracks set up as
   * CapturedSetup says, the outgoing stream holds the camera tracks followed
   * by one microphone track (boosted, or raw as fallback) iff a microphone
   * was captured, and a peer connection, when there is one, gets a sender
   * per outgoing track with the quality profile applied.
   */
  method CreateLocalMediaSession(env: MediaEnv, tracks: Tracks, pc: Option<PeerState>, mic: bool, cam: bool)
    returns (r: SessionOutcome, tracks': Tracks, pc': Option<PeerState>)
    requires EnvFresh(tracks, env)
    requires pc.Some? ==> TrackControls.SendersInRegistry(tracks, pc.value.senders)
    ensures Media.SelectUserMediaApi(env.apis).None? ==> r == SessionFailed(MediaUnavailable)
    ensures Media.SelectUserMediaApi(env.apis).Some? && env.granted.None? ==> r == SessionFailed(MediaRejected)
    ensures r.SessionFailed? ==> tracks' == tracks && pc' == pc
    ensures Media.SelectUserMediaApi(env.apis).Some? && env.granted.Some? ==> r.SessionCreated?
    ensures forall id :: id in tracks ==> id in tracks' && tracks'[id].(contentHint := tracks[id].contentHint) == tracks[id]
    ensures r.SessionCreated? ==>
      env.granted.Some? && SessionBuilt(tracks, pc, env.granted.value, env.boost, mic, cam, r.session, tracks', pc')
    ensures r.SessionCreated? ==>
      && (forall id :: id in tracks' && id !in tracks ==> tracks'[id].stopCount == 0)
      && (forall i :: 0 <= i < |r.session.localStream| ==> r.session.localStream[i] !in tracks)
      && (forall i :: 0 <= i < |r.session.localOutgoingStream| ==> r.session.localOutgoingStream[i] !in tracks)
  {
    if Media.SelectUserMediaApi(env.apis).None? {
      return SessionFailed(MediaUnavailable), tracks, pc;
    }
    if env.granted.None? {
      return SessionFailed(MediaRejected), tracks, pc;
    }
    var captured := env.granted.value;
    var localStream := CapturedIds(captured);
    var localOutgoingStream, audioContext, outgoingGainNode;
    tracks', localOutgoingStream, audioContext, outgoingGainNode := BuildLocalStreams(tracks, captured, env.boost, mic, cam);
    ghost var built := tracks';
    ghost var senders := if pc.Some? then Some(pc.value.senders + TrackControls.NewSenders(localOutgoingStream)) else None;
    tracks', pc' := AttachOutgoingTracks(tracks', localOutgoingStream, pc, mic, cam);
    SessionExistingTracks(tracks, captured, env.boost, mic, cam, built, localOutgoingStream, senders);
    SessionCapturedTracks(tracks, captured, env.boost, mic, cam, built, localOutgoingStream, senders);
    SessionBoostedTrack(tracks, captured, env.boost, mic, cam, built, localOutgoingStream, senders);
    SessionFreshTracks(tracks, captured, env.boost, mic, cam, built, localOutgoingStream, senders);
    r := SessionCreated(LocalMediaSession(localStream, localOutgoingStream, audioContext, outgoingGainNode));
    SessionCameraDefaults(tracks', captured, mic, cam);
    SetUpAsCapturedIntro(tracks', captured, FirstAudio(captured), mic, cam);
    SessionOutgoingDefaults(tracks', captured, FirstAudio(captured), env.boost, mic, cam, localOutgoingStream);
  }
}
