/**
 * Capture constraints, the choice of getUserMedia entry point, and stopping
 * the tracks of a stream (webrtc-room-client-media.ts).
 */
module Media {
  import opened Common
  import opened Browser

  // ---------------------------------------------------------------------------
  // Constraint constants

  /** A ConstrainULong range; absent bounds are unconstrained. */
  datatype Range = Range(min: Option<int>, ideal: Option<int>, max: Option<int>)

  /** Present bounds satisfy min <= ideal <= max. */
  predicate Ordered(r: Range) {
    && (r.min.Some? && r.ideal.Some? ==> r.min.value <= r.ideal.value)
    && (r.ideal.Some? && r.max.Some? ==> r.ideal.value <= r.max.value)
    && (r.min.Some? && r.max.Some? ==> r.min.value <= r.max.value)
  }

  datatype VideoConstraints = VideoConstraints(width: Range, height: Range, frameRate: Range, facingMode: string)

  datatype AudioConstraints = AudioConstraints(
    echoCancellation: bool, noiseSuppression: bool, autoGainControl: bool,
    channelCount: Range, sampleRate: Range, sampleSize: Range)

  /** HIGH_QUALITY_VIDEO_CONSTRAINTS: bounded width and height, a capped frame rate, the front camera. */
  function HighQualityVideoConstraints(): (c: VideoConstraints)
    ensures c.width.min.Some? && c.width.ideal.Some? && c.width.max.Some? && Ordered(c.width)
    ensures c.height.min.Some? && c.height.ideal.Some? && c.height.max.Some? && Ordered(c.height)
    ensures c.frameRate.ideal.Some? && c.frameRate.max.Some? && Ordered(c.frameRate)
    ensures c.facingMode == "user"
  {
    VideoConstraints(
      Range(Some(640), Some(1920), Some(3840)),
      Range(Some(480), Some(1080), Some(2160)),
      Range(None, Some(30), Some(60)),
      "user")
  }

  /** HIGH_QUALITY_AUDIO_CONSTRAINTS: all three voice processors on, a capped channel count. */
  function HighQualityAudioConstraints(): (c: AudioConstraints)
    ensures c.echoCancellation && c.noiseSuppression && c.autoGainControl
    ensures c.channelCount.ideal.Some? && c.channelCount.max.Some? && Ordered(c.channelCount)
    ensures c.sampleRate.ideal.Some? && c.sampleSize.ideal.Some?
  {
    AudioConstraints(true, true, true,
      Range(None, Some(2), Some(2)),
      Range(None, Some(48_000), None),
      Range(None, Some(16), None))
  }

  // ---------------------------------------------------------------------------
  // requestBrowserUserMedia

  /** The getUserMedia shapes a browser may offer. */
  datatype UserMediaApi = MediaDevices | LegacyStandard | LegacyWebkit | LegacyMoz

  /** Which of them this browser offers. */
  datatype MediaApis = MediaApis(mediaDevices: bool, legacyStandard: bool, legacyWebkit: bool, legacyMoz: bool)

  predicate Offers(apis: MediaApis, api: UserMediaApi) {
    match api
    case MediaDevices => apis.mediaDevices
    case LegacyStandard => apis.legacyStandard
    case LegacyWebkit => apis.legacyWebkit
    case LegacyMoz => apis.legacyMoz
  }

  /** Preference order of the shapes: lower is tried first. */
  function Preference(api: UserMediaApi): nat {
    match api
    case MediaDevices => 0
    case LegacyStandard => 1
    case LegacyWebkit => 2
    case LegacyMoz => 3
  }

  /**
   * The entry point requestBrowserUserMedia calls: the most preferred one the
   * browser offers; None means it throws "getUserMedia is unavailable".
   */
  function SelectUserMediaApi(apis: MediaApis): (r: Option<UserMediaApi>)
    ensures r.None? <==> forall a: UserMediaApi :: !Offers(apis, a)
    ensures r.Some? ==> Offers(apis, r.value)
    ensures r.Some? ==> forall a: UserMediaApi :: Preference(a) < Preference(r.value) ==> !Offers(apis, a)
  {
    if apis.mediaDevices then assert Offers(apis, MediaDevices); Some(MediaDevices)
    else if apis.legacyStandard then assert Offers(apis, LegacyStandard); Some(LegacyStandard)
    else if apis.legacyWebkit then assert Offers(apis, LegacyWebkit); Some(LegacyWebkit)
    else if apis.legacyMoz then assert Offers(apis, LegacyMoz); Some(LegacyMoz)
    else None
  }

  // ---------------------------------------------------------------------------
  // stopStreamTracks

  /** `track.stop()`. */
  function Stop(t: Track): Track {
    t.(stopCount := t.stopCount + 1)
  }

  /** The registry after stopping each track of `targets` exactly once. */
  function StopAll(tracks: Tracks, targets: set<TrackId>): (r: Tracks)
    ensures r.Keys == tracks.Keys
  {
    map id | id in tracks :: if id in targets then Stop(tracks[id]) else tracks[id]
  }

  /** Stopping A and then the part of B not in A stops every track of A + B once. */
  lemma StopAllCompose(tracks: Tracks, a: set<TrackId>, b: set<TrackId>)
    ensures StopAll(StopAll(tracks, a), b - a) == StopAll(tracks, a + b)
  {
  }

  /** Stopping nothing changes nothing. */
  lemma StopAllNothing(tracks: Tracks)
    ensures StopAll(tracks, {}) == tracks
  {
  }

  /** Stopping one more, not yet stopped, track extends the stopped set by it. */
  lemma StopAllStep(tracks: Tracks, targets: set<TrackId>, id: TrackId)
    requires id in tracks && id !in targets
    ensures StopAll(tracks, targets)[id := Stop(tracks[id])] == StopAll(tracks, targets + {id})
  {
  }

  /**
   * stopStreamTracks: stops each track of the stream whose id is not yet in
   * the optional set, and records it there. Without a set, every entry of the
   * stream is stopped (a stream that listed a track twice would stop it twice).
   */
  method StopStreamTracks(tracks: Tracks, stream: Option<Stream>, stoppedTrackIds: Option<set<TrackId>>)
    returns (tracks': Tracks, stopped': Option<set<TrackId>>)
    requires stream.Some? ==> InRegistry(tracks, stream.value)
    ensures stopped'.Some? <==> stoppedTrackIds.Some?
    ensures tracks'.Keys == tracks.Keys
    ensures stream.None? ==> tracks' == tracks && stopped' == stoppedTrackIds
    ensures stream.Some? && stoppedTrackIds.Some? ==>
      && tracks' == StopAll(tracks, Elems(stream.value) - stoppedTrackIds.value)
      && stopped'.value == stoppedTrackIds.value + Elems(stream.value)
    ensures stream.Some? && stoppedTrackIds.None? ==>
      forall id :: id in tracks ==>
        tracks'[id] == tracks[id].(stopCount := tracks[id].stopCount + multiset(stream.value)[id])
  {
    tracks', stopped' := tracks, stoppedTrackIds;
    if stream.None? {
      return;
    }
    var s := stream.value;
    var i := 0;
    if stoppedTrackIds.Some? {
      var before := stoppedTrackIds.value;
      while i < |s|
        invariant 0 <= i <= |s|
        invariant stopped'.Some?
        invariant stopped'.value == before + Elems(s[..i])
        invariant tracks' == StopAll(tracks, Elems(s[..i]) - before)
      {
        var id := s[i];
        assert Elems(s[..i + 1]) == Elems(s[..i]) + {id} by {
          assert s[..i + 1] == s[..i] + [id];
        }
        if id !in stopped'.value {
          StopAllStep(tracks, Elems(s[..i]) - before, id);
          tracks' := tracks'[id := Stop(tracks'[id])];
          stopped' := Some(stopped'.value + {id});
          assert Elems(s[..i + 1]) - before == (Elems(s[..i]) - before) + {id};
        } else {
          assert Elems(s[..i + 1]) - before == Elems(s[..i]) - before;
        }
        i := i + 1;
      }
    } else {
      while i < |s|
        invariant 0 <= i <= |s|
        invariant stopped'.None?
        invariant tracks'.Keys == tracks.Keys
        invariant forall id :: id in tracks ==>
          tracks'[id] == tracks[id].(stopCount := tracks[id].stopCount + multiset(s[..i])[id])
      {
        var id := s[i];
        assert s[..i + 1] == s[..i] + [id];
        tracks' := tracks'[id := Stop(tracks'[id])];
        i := i + 1;
      }
    }
    assert s[..i] == s;
  }
}
