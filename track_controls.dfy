/**
 * Sender quality profile, re-attaching local tracks to the peer connection,
 * and enabling / reading microphone and camera tracks across the capture
 * stream and the outgoing stream (webrtc-room-client-track-controls.ts).
 */
module TrackControls {
  import opened Common
  import opened Browser

  // ---------------------------------------------------------------------------
  // applySenderQualityProfile

  const VideoMaxBitrate: nat := 3_500_000
  const VideoMaxFramerate: nat := 30
  const VideoScaleResolutionDownBy: nat := 1
  const AudioMaxBitrate: nat := 128_000

  /** Every sender's track is a known track. */
  predicate SendersInRegistry(tracks: Tracks, senders: seq<Sender>) {
    forall i :: 0 <= i < |senders| && senders[i].track.Some? ==> senders[i].track.value in tracks
  }

  /**
   * One sender after the profile: a sender without a track is skipped;
   * otherwise absent or empty encodings become one empty encoding and the
   * first encoding gets the caps of the track's kind.
   */
  function ProfiledSender(tracks: Tracks, s: Sender): (r: Sender)
    requires s.track.Some? ==> s.track.value in tracks
    ensures s.track.None? ==> r == s
    ensures r.track == s.track
    ensures s.track.Some? ==> r.encodings.Some? && |r.encodings.value| > 0
    ensures s.track.Some? && s.encodings.Some? && |s.encodings.value| > 0 ==>
      |r.encodings.value| == |s.encodings.value| && r.encodings.value[1..] == s.encodings.value[1..]
    ensures s.track.Some? && (s.encodings.None? || s.encodings.value == []) ==> |r.encodings.value| == 1
    ensures s.track.Some? && tracks[s.track.value].kind == Video ==>
      var e := r.encodings.value[0];
      e.maxBitrate == Some(VideoMaxBitrate) && e.maxFramerate == Some(VideoMaxFramerate)
      && e.scaleResolutionDownBy == Some(VideoScaleResolutionDownBy)
    ensures s.track.Some? && tracks[s.track.value].kind == Audio ==>
      var e := r.encodings.value[0];
      e.maxBitrate == Some(AudioMaxBitrate)
      && (s.encodings.Some? && |s.encodings.value| > 0 ==>
            e.maxFramerate == s.encodings.value[0].maxFramerate
            && e.scaleResolutionDownBy == s.encodings.value[0].scaleResolutionDownBy)
  {
    if s.track.None? then s
    else
      var encodings :=
        if s.encodings.Some? && |s.encodings.value| > 0 then s.encodings.value
        else [Encoding(None, None, None)];
      var first :=
        if tracks[s.track.value].kind == Video then
          encodings[0].(maxBitrate := Some(VideoMaxBitrate), maxFramerate := Some(VideoMaxFramerate),
                        scaleResolutionDownBy := Some(VideoScaleResolutionDownBy))
        else
          encodings[0].(maxBitrate := Some(AudioMaxBitrate));
      s.(encodings := Some([first] + encodings[1..]))
  }

  /** Applying the profile twice is the same as applying it once. */
  lemma ProfiledSenderIdempotent(tracks: Tracks, s: Sender)
    requires s.track.Some? ==> s.track.value in tracks
    ensures ProfiledSender(tracks, ProfiledSender(tracks, s)) == ProfiledSender(tracks, s)
  {
  }

  /** The video tracks some sender carries get the 'detail' content hint. */
  function HintVideoSenders(tracks: Tracks, senders: seq<Sender>): (r: Tracks)
    ensures r.Keys == tracks.Keys
  {
    map id | id in tracks ::
      if id in SenderTrackIds(senders) && tracks[id].kind == Video then tracks[id].(contentHint := "detail")
      else tracks[id]
  }

  /** Hinting the senders one more sender covers hints that sender's video track too. */
  lemma HintVideoSendersStep(tracks: Tracks, senders: seq<Sender>, sender: Sender)
    requires sender.track.Some? ==> sender.track.value in tracks
    ensures var before := HintVideoSenders(tracks, senders);
      HintVideoSenders(tracks, senders + [sender]) ==
        if sender.track.Some? && before[sender.track.value].kind == Video
        then before[sender.track.value := before[sender.track.value].(contentHint := "detail")]
        else before
  {
    var all := senders + [sender];
    assert SenderTrackIds(all) == SenderTrackIds(senders) + (if sender.track.Some? then {sender.track.value} else {}) by {
      forall x | x in SenderTrackIds(all)
        ensures x in SenderTrackIds(senders) || (sender.track.Some? && x == sender.track.value)
      {
        var i :| 0 <= i < |all| && all[i].track.Some? && all[i].track.value == x;
        if i < |senders| {
          assert senders[i] == all[i];
        }
      }
      forall x | x in SenderTrackIds(senders)
        ensures x in SenderTrackIds(all)
      {
        var i :| 0 <= i < |senders| && senders[i].track.Some? && senders[i].track.value == x;
        assert all[i] == senders[i];
      }
      if sender.track.Some? {
        assert all[|senders|] == sender;
      }
    }
  }

  /** One sender's turn of the profile on the tracks: its video track gets the 'detail' content hint. */
  method HintSenderTrack(tracks: Tracks, done: seq<Sender>, hinted: Tracks, sender: Sender) returns (hinted': Tracks)
    requires hinted == HintVideoSenders(tracks, done)
    requires sender.track.Some? ==> sender.track.value in tracks
    ensures hinted' == HintVideoSenders(tracks, done + [sender])
  {
    HintVideoSendersStep(tracks, done, sender);
    hinted' := hinted;
    if sender.track.Some? {
      var id := sender.track.value;
      if hinted[id].kind == Video {
        hinted' := hinted[id := hinted[id].(contentHint := "detail")];
      }
    }
  }

  /** One step of applySenderQualityProfile: the `i`-th sender's parameters are rewritten if it has a track. */
  method ProfileSenderAt(tracks: Tracks, original: seq<Sender>, senders: seq<Sender>, i: nat) returns (senders': seq<Sender>)
    requires SendersInRegistry(tracks, original)
    requires i < |original| == |senders|
    requires forall k :: 0 <= k < i ==> senders[k] == ProfiledSender(tracks, original[k])
    requires forall k :: i <= k < |original| ==> senders[k] == original[k]
    ensures |senders'| == |original|
    ensures forall k :: 0 <= k <= i ==> senders'[k] == ProfiledSender(tracks, original[k])
    ensures forall k :: i < k < |original| ==> senders'[k] == original[k]
  {
    var sender := original[i];
    senders' := senders;
    if sender.track.Some? {
      senders' := senders[i := ProfiledSender(tracks, sender)];
    }
  }

  /**
   * applySenderQualityProfile: rewrites the parameters of every sender that
   * has a track. A rejected setParameters is only logged by the source, so it
   * changes nothing here: the method has no failure outcome.
   */
  method ApplySenderQualityProfile(pc: PeerState, tracks: Tracks) returns (pc': PeerState, tracks': Tracks)
    requires SendersInRegistry(tracks, pc.senders)
    ensures pc' == pc.(senders := pc'.senders)
    ensures |pc'.senders| == |pc.senders|
    ensures forall i :: 0 <= i < |pc.senders| ==> pc'.senders[i] == ProfiledSender(tracks, pc.senders[i])
    ensures tracks' == HintVideoSenders(tracks, pc.senders)
  {
    var senders := pc.senders;
    var i := 0;
    tracks' := tracks;
    while i < |pc.senders|
      invariant 0 <= i <= |pc.senders|
      invariant |senders| == |pc.senders|
      invariant forall k :: 0 <= k < i ==> senders[k] == ProfiledSender(tracks, pc.senders[k])
      invariant forall k :: i <= k < |pc.senders| ==> senders[k] == pc.senders[k]
      invariant tracks' == HintVideoSenders(tracks, pc.senders[..i])
    {
      var sender := pc.senders[i];
      assert pc.senders[..i + 1] == pc.senders[..i] + [sender];
      tracks' := HintSenderTrack(tracks, pc.senders[..i], tracks', sender);
      senders := ProfileSenderAt(tracks, pc.senders, senders, i);
      i := i + 1;
    }
    assert pc.senders[..i] == pc.senders;
    pc' := pc.(senders := senders);
  }

  // ---------------------------------------------------------------------------
  // attachLocalTracksToPeerConnection

  /**
   * The track ids already sent, as the source collects them: `filter(Boolean)`
   * drops an empty id.
   */
  function AttachedTrackIds(senders: seq<Sender>): set<TrackId> {
    set i | 0 <= i < |senders| && senders[i].track.Some? && senders[i].track.value != "" :: senders[i].track.value
  }

  /** The tracks of `outgoing` not in `attached`, in stream order. */
  function Unattached(outgoing: Stream, attached: set<TrackId>): (r: seq<TrackId>)
    ensures |r| <= |outgoing|
  {
    if outgoing == [] then []
    else (if outgoing[0] in attached then [] else [outgoing[0]]) + Unattached(outgoing[1..], attached)
  }

  /** `addTrack` for each id: one new sender per track, without encodings yet. */
  function NewSenders(ids: seq<TrackId>): (r: seq<Sender>)
    ensures |r| == |ids|
    ensures forall i :: 0 <= i < |ids| ==> r[i] == Sender(Some(ids[i]), None)
  {
    seq(|ids|, i requires 0 <= i < |ids| => Sender(Some(ids[i]), None))
  }

  /** A track is left to attach iff it is in the stream and not yet attached. */
  lemma {:induction false} UnattachedMembers(outgoing: Stream, attached: set<TrackId>, x: TrackId)
    ensures x in Unattached(outgoing, attached) <==> x in outgoing && x !in attached
  {
    if outgoing != [] {
      UnattachedMembers(outgoing[1..], attached, x);
      assert outgoing == [outgoing[0]] + outgoing[1..];
    }
  }

  lemma {:induction false} UnattachedSnoc(outgoing: Stream, attached: set<TrackId>, x: TrackId)
    ensures Unattached(outgoing + [x], attached) == Unattached(outgoing, attached) + (if x in attached then [] else [x])
  {
    if outgoing == [] {
      assert [x][1..] == [];
    } else {
      assert (outgoing + [x])[1..] == outgoing[1..] + [x];
      UnattachedSnoc(outgoing[1..], attached, x);
    }
  }

  /**
   * attachLocalTracksToPeerConnection: adds, in stream order, each outgoing
   * track whose id no sender carried when the call began, and returns how
   * many it added.
   */
  method AttachLocalTracksToPeerConnection(pc: PeerState, outgoing: Stream) returns (pc': PeerState, count: nat)
    ensures pc' == pc.(senders := pc.senders + NewSenders(Unattached(outgoing, AttachedTrackIds(pc.senders))))
    ensures count == |Unattached(outgoing, AttachedTrackIds(pc.senders))|
  {
    var attachedTrackIds := AttachedTrackIds(pc.senders);
    var senders := pc.senders;
    count := 0;
    var i := 0;
    while i < |outgoing|
      invariant 0 <= i <= |outgoing|
      invariant senders == pc.senders + NewSenders(Unattached(outgoing[..i], attachedTrackIds))
      invariant count == |Unattached(outgoing[..i], attachedTrackIds)|
    {
      var id := outgoing[i];
      UnattachedSnoc(outgoing[..i], attachedTrackIds, id);
      assert outgoing[..i + 1] == outgoing[..i] + [id];
      if id !in attachedTrackIds {
        senders := senders + [Sender(Some(id), None)];
        count := count + 1;
      }
      i := i + 1;
    }
    assert outgoing[..i] == outgoing;
    pc' := pc.(senders := senders);
  }

  /** After attaching, every outgoing track is carried by some sender. */
  lemma AttachCoversOutgoing(pc: PeerState, outgoing: Stream)
    ensures var senders := pc.senders + NewSenders(Unattached(outgoing, AttachedTrackIds(pc.senders)));
      forall x :: x in outgoing ==> x in SenderTrackIds(senders)
  {
    var added := Unattached(outgoing, AttachedTrackIds(pc.senders));
    var senders := pc.senders + NewSenders(added);
    forall x | x in outgoing
      ensures x in SenderTrackIds(senders)
    {
      UnattachedMembers(outgoing, AttachedTrackIds(pc.senders), x);
      if x in AttachedTrackIds(pc.senders) {
        var i :| 0 <= i < |pc.senders| && pc.senders[i].track.Some? && pc.senders[i].track.value == x;
        assert senders[i] == pc.senders[i];
      } else {
        var j :| 0 <= j < |added| && added[j] == x;
        assert senders[|pc.senders| + j] == Sender(Some(x), None);
      }
    }
  }

  /**
   * Attaching is idempotent: once attached, a second call with the same
   * outgoing stream adds nothing (track ids are never empty).
   */
  lemma AttachIdempotent(pc: PeerState, outgoing: Stream)
    requires forall x :: x in outgoing ==> x != ""
    ensures var senders := pc.senders + NewSenders(Unattached(outgoing, AttachedTrackIds(pc.senders)));
      Unattached(outgoing, AttachedTrackIds(senders)) == []
  {
    var added := Unattached(outgoing, AttachedTrackIds(pc.senders));
    var senders := pc.senders + NewSenders(added);
    AttachCoversOutgoing(pc, outgoing);
    forall x | x in outgoing
      ensures x in AttachedTrackIds(senders)
    {
      var i :| 0 <= i < |senders| && senders[i].track.Some? && senders[i].track.value == x;
    }
    var again := Unattached(outgoing, AttachedTrackIds(senders));
    if again != [] {
      UnattachedMembers(outgoing, AttachedTrackIds(senders), again[0]);
      assert false;
    }
  }

  /**
   * The empty-id filter is what idempotence rests on: a track with id "" is
   * missed by the dedup and handed to addTrack again, which the browser
   * refuses for a track that already has a sender.
   */
  lemma EmptyIdAttachedTwice()
    ensures var pc := PeerState([Sender(Some(""), None)], None, None, []);
      Unattached([""], AttachedTrackIds(pc.senders)) == [""]
  {
    var pc := PeerState([Sender(Some(""), None)], None, None, []);
    assert AttachedTrackIds(pc.senders) == {};
  }

  // ---------------------------------------------------------------------------
  // getPrimaryTrackEnabled / setTrackEnabled

  /** The tracks of `kind` in an optional stream. */
  function Targets(tracks: Tracks, kind: TrackKind, s: Option<Stream>): set<TrackId> {
    if s.None? then {} else set x | x in s.value && x in tracks && tracks[x].kind == kind
  }

  /** Both streams' tracks exist (when the streams exist). */
  predicate StreamsInRegistry(tracks: Tracks, localStream: Option<Stream>, localOutgoingStream: Option<Stream>) {
    && (localStream.Some? ==> InRegistry(tracks, localStream.value))
    && (localOutgoingStream.Some? ==> InRegistry(tracks, localOutgoingStream.value))
  }

  /** `stream?.getXTracks()[0]?.enabled`. */
  function FirstEnabled(tracks: Tracks, kind: TrackKind, s: Option<Stream>): (r: Option<bool>)
    requires s.Some? ==> InRegistry(tracks, s.value)
    ensures r.None? <==> Targets(tracks, kind, s) == {}
    ensures r.Some? ==> exists x :: x in Targets(tracks, kind, s) && tracks[x].enabled == r.value
    ensures r.Some? ==> exists i :: FirstOfKindAt(tracks, s.value, kind, i) && tracks[s.value[i]].enabled == r.value
  {
    if s.None? then None
    else
      var ts := OfKind(tracks, s.value, kind);
      if ts == [] then
        assert forall x :: x in s.value && x in tracks ==> tracks[x].kind != kind by {
          forall x | x in s.value && x in tracks ensures tracks[x].kind != kind {
            assert x !in ts;
          }
        }
        None
      else
        var first := ts[0];
        assert first in s.value && first in tracks && tracks[first].kind == kind by {
          assert first in ts;
        }
        assert first in Targets(tracks, kind, s);
        OfKindHead(tracks, s.value, kind);
        Some(tracks[first].enabled)
  }

  /**
   * getPrimaryTrackEnabled: the microphone state is read from the outgoing
   * stream first, the camera state from the capture stream first; None when
   * neither stream has a track of that kind.
   */
  function GetPrimaryTrackEnabled(kind: TrackKind, tracks: Tracks, localStream: Option<Stream>,
                                  localOutgoingStream: Option<Stream>): (r: Option<bool>)
    requires StreamsInRegistry(tracks, localStream, localOutgoingStream)
    ensures r.None? <==> Targets(tracks, kind, localStream) + Targets(tracks, kind, localOutgoingStream) == {}
    ensures kind == Audio && Targets(tracks, kind, localOutgoingStream) != {} ==>
      r == FirstEnabled(tracks, kind, localOutgoingStream)
    ensures kind == Video && Targets(tracks, kind, localStream) != {} ==>
      r == FirstEnabled(tracks, kind, localStream)
    ensures kind == Audio && Targets(tracks, kind, localOutgoingStream) == {} ==>
      r == FirstEnabled(tracks, kind, localStream)
    ensures kind == Video && Targets(tracks, kind, localStream) == {} ==>
      r == FirstEnabled(tracks, kind, localOutgoingStream)
    ensures r.Some? ==>
      exists x :: x in Targets(tracks, kind, localStream) + Targets(tracks, kind, localOutgoingStream)
                  && tracks[x].enabled == r.value
  {
    if kind == Audio then
      match FirstEnabled(tracks, kind, localOutgoingStream)
      case Some(e) => Some(e)
      case None => FirstEnabled(tracks, kind, localStream)
    else
      match FirstEnabled(tracks, kind, localStream)
      case Some(e) => Some(e)
      case None => FirstEnabled(tracks, kind, localOutgoingStream)
  }

  /** The registry with every track of `ids` set to `enabled`. */
  function EnableAll(tracks: Tracks, ids: set<TrackId>, enabled: bool): (r: Tracks)
    ensures r.Keys == tracks.Keys
  {
    map id | id in tracks :: if id in ids then tracks[id].(enabled := enabled) else tracks[id]
  }

  lemma {:induction false} OfKindSameKinds(t1: Tracks, t2: Tracks, s: Stream, kind: TrackKind)
    requires InRegistry(t1, s) && InRegistry(t2, s)
    requires forall x :: x in s ==> t1[x].kind == t2[x].kind
    ensures OfKind(t1, s, kind) == OfKind(t2, s, kind)
  {
    if s != [] {
      assert forall x :: x in s[1..] ==> x in s;
      OfKindSameKinds(t1, t2, s[1..], kind);
    }
  }

  lemma EnableAllStep(tracks: Tracks, ids: set<TrackId>, id: TrackId, enabled: bool)
    requires id in tracks
    ensures EnableAll(tracks, ids, enabled)[id := tracks[id].(enabled := enabled)] == EnableAll(tracks, ids + {id}, enabled)
  {
  }

  /** Enabling or disabling tracks leaves their kinds, and so the per-kind lists, alone. */
  lemma OfKindEnableAll(tracks: Tracks, ids: set<TrackId>, enabled: bool, s: Stream, kind: TrackKind)
    requires InRegistry(tracks, s)
    ensures InRegistry(EnableAll(tracks, ids, enabled), s)
    ensures OfKind(EnableAll(tracks, ids, enabled), s, kind) == OfKind(tracks, s, kind)
  {
    OfKindSameKinds(EnableAll(tracks, ids, enabled), tracks, s, kind);
  }

  lemma OfKindTargets(tracks: Tracks, s: Stream, kind: TrackKind)
    requires InRegistry(tracks, s)
    ensures Elems(OfKind(tracks, s, kind)) == Targets(tracks, kind, Some(s))
  {
  }

  lemma DistinctSnoc<T>(s: seq<T>, x: T)
    requires Distinct(s) && x !in Elems(s)
    ensures Distinct(s + [x]) && Elems(s + [x]) == Elems(s) + {x}
  {
  }

  /** `track.enabled = enabled` for one id not processed yet, which then joins the processed set. */
  method EnableTrack(tracks: Tracks, enabled: bool, processed: set<TrackId>, current: Tracks,
                     ghost writes: seq<TrackId>, id: TrackId)
    returns (processed': set<TrackId>, current': Tracks, ghost writes': seq<TrackId>)
    requires id in tracks && id !in processed
    requires current == EnableAll(tracks, processed, enabled)
    requires Distinct(writes) && Elems(writes) == processed
    ensures processed' == processed + {id}
    ensures current' == EnableAll(tracks, processed', enabled)
    ensures Distinct(writes') && Elems(writes') == processed'
  {
    assert current[id] == tracks[id];
    EnableAllStep(tracks, processed, id, enabled);
    DistinctSnoc(writes, id);
    current' := current[id := current[id].(enabled := enabled)];
    processed' := processed + {id};
    writes' := writes + [id];
  }

  /**
   * The inner loop of setTrackEnabled over one stream's tracks of `kind`:
   * each id not yet processed gets `enabled` and joins the processed set.
   */
  method EnableStreamTracks(kind: TrackKind, enabled: bool, tracks: Tracks, stream: Stream,
                            processed: set<TrackId>, current: Tracks, ghost writes: seq<TrackId>)
    returns (processed': set<TrackId>, current': Tracks, ghost writes': seq<TrackId>)
    requires InRegistry(tracks, stream)
    requires current == EnableAll(tracks, processed, enabled)
    requires Distinct(writes) && Elems(writes) == processed
    ensures processed' == processed + Targets(tracks, kind, Some(stream))
    ensures current' == EnableAll(tracks, processed', enabled)
    ensures Distinct(writes') && Elems(writes') == processed'
  {
    // Kinds never change (OfKindEnableAll), so the per-kind list of the
    // current registry is the one read from the original registry.
    var ts := OfKind(tracks, stream, kind);
    processed', current', writes' := processed, current, writes;
    for j := 0 to |ts|
      invariant processed' == processed + Elems(ts[..j])
      invariant current' == EnableAll(tracks, processed', enabled)
      invariant Distinct(writes') && Elems(writes') == processed'
    {
      var id := ts[j];
      assert ts[..j + 1] == ts[..j] + [id];
      assert Elems(ts[..j + 1]) == Elems(ts[..j]) + {id};
      assert id in ts;
      if id !in processed' {
        processed', current', writes' := EnableTrack(tracks, enabled, processed', current', writes', id);
      }
    }
    assert ts[..|ts|] == ts;
    OfKindTargets(tracks, stream, kind);
  }

  /**
   * setTrackEnabled: sets `enabled` on every track of `kind` in the capture
   * stream and in the outgoing stream, skipping a track id already handled,
   * and reports whether there was any. `writes` lists the ids in the order
   * their `enabled` was assigned.
   */
  method SetTrackEnabled(kind: TrackKind, enabled: bool, tracks: Tracks,
                         localStream: Option<Stream>, localOutgoingStream: Option<Stream>)
    returns (hasTrack: bool, tracks': Tracks, ghost writes: seq<TrackId>)
    requires StreamsInRegistry(tracks, localStream, localOutgoingStream)
    ensures hasTrack <==> Targets(tracks, kind, localStream) + Targets(tracks, kind, localOutgoingStream) != {}
    ensures tracks' == EnableAll(tracks, Targets(tracks, kind, localStream) + Targets(tracks, kind, localOutgoingStream), enabled)
    ensures Distinct(writes)
    ensures Elems(writes) == Targets(tracks, kind, localStream) + Targets(tracks, kind, localOutgoingStream)
  {
    var targetStreams := [localStream, localOutgoingStream];
    var processedTrackIds: set<TrackId> := {};
    tracks' := tracks;
    writes := [];
    for si := 0 to 2
      invariant processedTrackIds ==
        (if si > 0 then Targets(tracks, kind, localStream) else {})
        + (if si > 1 then Targets(tracks, kind, localOutgoingStream) else {})
      invariant tracks' == EnableAll(tracks, processedTrackIds, enabled)
      invariant Distinct(writes) && Elems(writes) == processedTrackIds
    {
      var stream := targetStreams[si];
      if stream.Some? {
        processedTrackIds, tracks', writes :=
          EnableStreamTracks(kind, enabled, tracks, stream.value, processedTrackIds, tracks', writes);
      }
    }
    hasTrack := processedTrackIds != {};
  }
}
