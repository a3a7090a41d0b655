/**
 * The parts of the LiveKit client SDK and of WebRTC that the front end touches,
 * as abstract values. No media, codec or signalling behaviour is modelled:
 * an awaited SDK promise is an outcome supplied by the caller, and the calls
 * the quality operations make into the SDK are returned in a call log.
 */
module Sdk {

  datatype Option<+T> = None | Some(value: T)

  datatype Result<+T, +E> = Success(value: T) | Failure(error: E)

  /** How an awaited promise settles. */
  datatype Settle = Resolves | Rejects

  /** An awaited promise that yields a value when it resolves. */
  datatype Await<+T> = Resolved(value: T) | Rejected

  /** A video resolution as the SDK types it: width, height and an optional frame rate. */
  datatype Resolution = Resolution(width: int, height: int, frameRate: Option<int>)

  predicate PositiveResolution(r: Resolution)
  {
    r.width > 0 && r.height > 0 && (r.frameRate.Some? ==> r.frameRate.value > 0)
  }

  /**
   * The SDK's preset constants (VideoPresets.h720, VideoPresets.h360,
   * VideoPresets43.h480). Their concrete values live in the SDK, so the model
   * only knows that they are positive resolutions.
   */
  datatype SdkPresets = SdkPresets(h720: Resolution, h360: Resolution, h480x43: Resolution)

  predicate ValidPresets(p: SdkPresets)
  {
    PositiveResolution(p.h720) && PositiveResolution(p.h360) && PositiveResolution(p.h480x43)
  }

  /** Members of an RTCRtpEncodingParameters dictionary other than the two the app writes. */
  type Members = map<string, string>

  /** One entry of RTCRtpSendParameters.encodings. `None` is an absent (or undefined) member. */
  datatype Encoding = Encoding(maxBitrate: Option<int>, maxFramerate: Option<int>, others: Members)

  /** What spreading `undefined` yields: a dictionary with no members. */
  const NoEncoding: Encoding := Encoding(None, None, map[])

  /** RTCRtpSendParameters: the encodings array and the remaining members (transaction id, codecs, ...). */
  datatype SendParameters = SendParameters(encodings: seq<Encoding>, others: Members)

  /** The RTP sender of a published local video track; `parameters` is what getParameters returns. */
  datatype Sender = Sender(parameters: SendParameters)

  type TrackId = nat
  type MediaId = nat

  /** A LocalVideoTrack: its identity, its optional sender and the MediaStreamTrack it currently sends. */
  datatype VideoTrack = VideoTrack(id: TrackId, sender: Option<Sender>, media: MediaId)

  /**
   * What a publication's `track` member holds. The `instanceof LocalVideoTrack`
   * test of the source becomes a match on this tag.
   */
  datatype TrackRef = NoTrack | LocalVideo(video: VideoTrack) | OtherTrack

  datatype Source = Camera | Microphone | ScreenShare | ScreenShareAudio | UnknownSource

  datatype TrackKind = Video | Audio

  datatype Publication = Publication(source: Source, kind: TrackKind, track: TrackRef)

  datatype RoomState = Disconnected | Connecting | Connected | Reconnecting

  /** A room as the components see it: an identity, its state and the local participant's publications. */
  datatype RoomView = RoomView(id: nat, state: RoomState, publications: seq<Publication>)

  /**
   * The options object handed to LocalVideoTrack.restartTrack. The source passes
   * two shapes: `{ resolution: ... }` and a bare `{ width, height, frameRate }`.
   */
  datatype RestartOptions =
    | ResolutionOption(resolution: Resolution)
    | TopLevelTriple(width: int, height: int, frameRate: int)

  /** A call the front end makes into the SDK. */
  datatype SdkCall =
    | RestartTrack(track: TrackId, options: RestartOptions)
    | SetParameters(track: TrackId, params: SendParameters)  // on the sender of that track
    | CreateLocalVideoTrack(resolution: Option<Resolution>)  // None: `resolution: undefined`
    | ReplaceTrack(track: TrackId, media: MediaId)

  /** The two ways `Array.prototype.find` is used on the publication list. */
  datatype Selector = BySource(source: Source) | ByKind(kind: TrackKind)

  predicate Matches(p: Publication, sel: Selector)
  {
    match sel
    case BySource(s) => p.source == s
    case ByKind(k) => p.kind == k
  }

  /** `publications.find(...)`: the index of the first publication the selector matches. */
  function Find(pubs: seq<Publication>, sel: Selector): (r: Option<nat>)
    ensures r.Some? ==> r.value < |pubs| && Matches(pubs[r.value], sel)
    ensures r.Some? ==> forall j :: 0 <= j < r.value ==> !Matches(pubs[j], sel)
    ensures r.None? ==> forall j :: 0 <= j < |pubs| ==> !Matches(pubs[j], sel)
  {
    if |pubs| == 0 then None
    else if Matches(pubs[0], sel) then Some(0)
    else match Find(pubs[1..], sel)
      case None => None
      case Some(i) => Some(i + 1)
  }

  /** `find(...)` followed by `pub.track instanceof LocalVideoTrack`. */
  function FindLocalVideo(pubs: seq<Publication>, sel: Selector): (r: Option<VideoTrack>)
    ensures r.Some? <==> Find(pubs, sel).Some? && pubs[Find(pubs, sel).value].track.LocalVideo?
    ensures r.Some? ==> r.value == pubs[Find(pubs, sel).value].track.video
  {
    match Find(pubs, sel)
    case None => None
    case Some(i) => if pubs[i].track.LocalVideo? then Some(pubs[i].track.video) else None
  }
}
