/**
 * ConferenceLayout: whenever the room or the shared quality changes, restart
 * the local camera capture with constraints chosen from the quality key. It
 * never touches the sender's encoder parameters.
 */
module ConferenceLayout {
  import opened Sdk
  import opened VideoQualityPresets

  /** `Exclude<VideoQualityKey, 'auto'>`, the key type of the layout's resolution map. */
  type ExplicitKey = k: QualityKey | k != Auto witness Q720

  /** A `{ width, height, frameRate }` entry of the resolution map. */
  datatype Constraints = Constraints(width: int, height: int, frameRate: int)

  /** The layout's own resolution map: every entry positive, all at 24 frames per second. */
  function ResolutionMap(k: ExplicitKey): (c: Constraints)
    ensures c.width > 0 && c.height > 0 && c.frameRate == 24
    ensures c.height < c.width
  {
    match k
    case Q720 => Constraints(1280, 720, 24)
    case Q480 => Constraints(854, 480, 24)
    case Q360 => Constraints(640, 360, 24)
  }

  /** The map's keys in the order of its literal. */
  const MapOrder: seq<ExplicitKey> := [Q720, Q480, Q360]

  /** Along the literal's order, widths and heights strictly decrease. */
  lemma MapStrictlyDecreasing()
    ensures forall i, j :: 0 <= i < j < |MapOrder| ==>
      ResolutionMap(MapOrder[i]).height > ResolutionMap(MapOrder[j]).height
      && ResolutionMap(MapOrder[i]).width > ResolutionMap(MapOrder[j]).width
  {
  }

  /**
   * For 480p the layout restarts capture at the preset table's dimensions but at
   * 24 frames per second where the table says 30.
   */
  lemma Preset480FrameRateDiffers(sdk: SdkPresets)
    ensures var r := PresetFor(sdk, Q480).value.resolution.value;
            r.width == ResolutionMap(Q480).width && r.height == ResolutionMap(Q480).height
            && r.frameRate == Some(30) && ResolutionMap(Q480).frameRate == 24
  {
  }

  /**
   * The options passed to restartTrack: `{ resolution: VideoPresets.h720 }`
   * for auto, otherwise the map's entry itself, whose members sit at the top
   * level of the options object rather than under `resolution`.
   */
  function RestartOptionsFor(sdk: SdkPresets, q: QualityKey): (o: RestartOptions)
    ensures o.ResolutionOption? <==> q == Auto
    ensures q == Auto ==> o.resolution == sdk.h720
    ensures q != Auto ==> o.width == ResolutionMap(q).width && o.height == ResolutionMap(q).height
                          && o.frameRate == 24
  {
    if q == Auto then ResolutionOption(sdk.h720)
    else
      var c := ResolutionMap(q);
      TopLevelTriple(c.width, c.height, c.frameRate)
  }

  /**
   * `applyLocalVideoQuality(room, quality)`: with no camera publication, or one
   * whose track is not a LocalVideoTrack, no call at all; otherwise exactly one
   * restartTrack on that track, and nothing else.
   */
  function ApplyLocalVideoQuality(sdk: SdkPresets, pubs: seq<Publication>, q: QualityKey): (calls: seq<SdkCall>)
    ensures FindLocalVideo(pubs, BySource(Camera)).None? ==> calls == []
    ensures FindLocalVideo(pubs, BySource(Camera)).Some? ==>
      calls == [RestartTrack(FindLocalVideo(pubs, BySource(Camera)).value.id, RestartOptionsFor(sdk, q))]
    ensures forall c :: c in calls ==> c.RestartTrack?
  {
    var pub := Find(pubs, BySource(Camera));
    if pub.None? || !pubs[pub.value].track.LocalVideo? then []
    else
      var track := pubs[pub.value].track.video;
      if q == Auto then [RestartTrack(track.id, ResolutionOption(sdk.h720))]
      else
        var constraints := ResolutionMap(q);
        [RestartTrack(track.id, TopLevelTriple(constraints.width, constraints.height, constraints.frameRate))]
  }

  /** The dependency list `[room, quality]` of the effect; a room is compared by identity. */
  datatype Deps = Deps(room: Option<nat>, quality: QualityKey)

  function DepsOf(room: Option<RoomView>, quality: QualityKey): Deps
  {
    Deps(if room.Some? then Some(room.value.id) else None, quality)
  }

  /** The component's effect bookkeeping: the dependencies it last ran with. */
  class Layout {
    var lastDeps: Option<Deps>

    constructor ()
      ensures lastDeps == None
    {
      lastDeps := None;
    }

    /**
     * One commit of the component with the current room and quality. The
     * effect runs on the first commit and whenever `[room, quality]` differ
     * from the last run; it does nothing while there is no room.
     */
    method Commit(sdk: SdkPresets, room: Option<RoomView>, quality: QualityKey) returns (calls: seq<SdkCall>)
      modifies this
      ensures lastDeps == Some(DepsOf(room, quality))
      ensures old(lastDeps) == Some(DepsOf(room, quality)) ==> calls == []
      ensures old(lastDeps) != Some(DepsOf(room, quality)) ==>
        calls == if room.None? then [] else ApplyLocalVideoQuality(sdk, room.value.publications, quality)
    {
      calls := [];
      var deps := DepsOf(room, quality);
      if lastDeps == Some(deps) {
        return;
      }
      lastDeps := Some(deps);
      if room.None? {
        return;
      }
      calls := ApplyLocalVideoQuality(sdk, room.value.publications, quality);
    }
  }
}
