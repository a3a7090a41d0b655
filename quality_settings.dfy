/**
 * VideoQualitySettings: a select over five quality strings. Choosing one
 * creates a new camera track at that quality's resolution and swaps its media
 * into the published local video track, with the select disabled meanwhile.
 */
module VideoQualitySettings {
  import opened Sdk

  /** The five values of the select's options. */
  datatype SettingsKey = SAuto | S1080 | S720 | S360 | S216

  /** An option's `value`. */
  function OptionValue(k: SettingsKey): (s: string)
    ensures ParseOption(s) == Some(k)
  {
    match k
    case SAuto => "auto"
    case S1080 => "1080p"
    case S720 => "720p"
    case S360 => "360p"
    case S216 => "216p"
  }

  /** `e.target.value as VideoQuality`: which option a value string belongs to. */
  function ParseOption(s: string): (r: Option<SettingsKey>)
    ensures r.Some? <==> s in {"auto", "1080p", "720p", "360p", "216p"}
  {
    if s == "auto" then Some(SAuto)
    else if s == "1080p" then Some(S1080)
    else if s == "720p" then Some(S720)
    else if s == "360p" then Some(S360)
    else if s == "216p" then Some(S216)
    else None
  }

  /** An option's visible text. */
  function OptionCaption(k: SettingsKey): string
  {
    if k == SAuto then "Auto" else OptionValue(k)
  }

  /** The options in the order the select lists them. */
  const OptionOrder: seq<SettingsKey> := [SAuto, S1080, S720, S360, S216]

  /** Every key is an option exactly once, and the five values are distinct strings. */
  lemma OptionsListEveryKeyOnce(k: SettingsKey)
    ensures k in OptionOrder
    ensures forall i, j :: 0 <= i < j < |OptionOrder| ==> OptionValue(OptionOrder[i]) != OptionValue(OptionOrder[j])
  {
    match k
    case SAuto => assert OptionOrder[0] == k;
    case S1080 => assert OptionOrder[1] == k;
    case S720 => assert OptionOrder[2] == k;
    case S360 => assert OptionOrder[3] == k;
    case S216 => assert OptionOrder[4] == k;
  }

  /**
   * VIDEO_QUALITIES, an object from quality string to resolution. It is not
   * defined in the presets file of this model, so it is a parameter, and a
   * string it lacks reads as `undefined`.
   */
  type QualityTable = map<string, Resolution>

  function ResolutionFor(table: QualityTable, k: SettingsKey): Option<Resolution>
  {
    if OptionValue(k) in table then Some(table[OptionValue(k)]) else None
  }

  /** The component's two state cells. */
  datatype Settings = Settings(quality: SettingsKey, loading: bool)

  const InitialSettings: Settings := Settings(SAuto, false)

  /** The state after one `changeQuality` call, and the SDK calls it made. */
  datatype Change = Change(after: Settings, calls: seq<SdkCall>)

  /**
   * `changeQuality(newQuality)` run to its end. `created` is how
   * `createLocalVideoTrack` settles (the new track's media when it resolves),
   * `replaced` how `replaceTrack` settles. A rejection propagates out of the
   * async function with loading still set.
   */
  function ChangeEffect(table: QualityTable, room: Option<RoomView>, s: Settings, newQuality: SettingsKey,
                        created: Await<MediaId>, replaced: Settle): (c: Change)
    // no room: nothing happens
    ensures room.None? ==> c == Change(s, [])
    // with a room, the selection is taken whatever happens next
    ensures room.Some? ==> c.after.quality == newQuality
    // no LocalVideoTrack on the first video publication: loading is cleared and nothing is called
    ensures room.Some? && FindLocalVideo(room.value.publications, ByKind(Video)).None? ==>
      c == Change(Settings(newQuality, false), [])
    // otherwise a track is created at the table's resolution, and its media replaces the old one
    ensures room.Some? && FindLocalVideo(room.value.publications, ByKind(Video)).Some? ==>
      && |c.calls| >= 1
      && c.calls[0] == CreateLocalVideoTrack(ResolutionFor(table, newQuality))
      && (|c.calls| == 2 <==> created.Resolved?)
      && (created.Resolved? ==>
            c.calls[1] == ReplaceTrack(FindLocalVideo(room.value.publications, ByKind(Video)).value.id, created.value))
      && (!c.after.loading <==> created.Resolved? && replaced == Resolves)
    ensures |c.calls| <= 2
  {
    if room.None? then Change(s, [])
    else
      match FindLocalVideo(room.value.publications, ByKind(Video))
      case None => Change(Settings(newQuality, false), [])
      case Some(track) =>
        var create := CreateLocalVideoTrack(ResolutionFor(table, newQuality));
        match created
        case Rejected => Change(Settings(newQuality, true), [create])
        case Resolved(media) =>
          Change(Settings(newQuality, replaced == Rejects), [create, ReplaceTrack(track.id, media)])
  }

  /** The rendered select: its value, whether it is disabled, and its options. */
  datatype SelectView = SelectView(value: string, disabled: bool, options: seq<(string, string)>)

  function View(s: Settings): (v: SelectView)
    ensures ParseOption(v.value) == Some(s.quality)
    ensures v.disabled <==> s.loading
    ensures |v.options| == |OptionOrder|
    ensures forall i :: 0 <= i < |v.options| ==> ParseOption(v.options[i].0) == Some(OptionOrder[i])
  {
    SelectView(OptionValue(s.quality), s.loading,
               [(OptionValue(SAuto), OptionCaption(SAuto)), (OptionValue(S1080), OptionCaption(S1080)),
                (OptionValue(S720), OptionCaption(S720)), (OptionValue(S360), OptionCaption(S360)),
                (OptionValue(S216), OptionCaption(S216))])
  }

  /** A user's choice in the select, with how the promises it starts settle. */
  datatype Choice = Choice(newQuality: SettingsKey, created: Await<MediaId>, replaced: Settle)

  /** The browser delivers a change only to an enabled select. */
  function Deliver(table: QualityTable, room: Option<RoomView>, s: Settings, ch: Choice): Settings
  {
    if View(s).disabled then s else ChangeEffect(table, room, s, ch.newQuality, ch.created, ch.replaced).after
  }

  function RunChoices(table: QualityTable, room: Option<RoomView>, s: Settings, chs: seq<Choice>): Settings
    decreases |chs|
  {
    if |chs| == 0 then s else Deliver(table, room, RunChoices(table, room, s, chs[..|chs| - 1]), chs[|chs| - 1])
  }

  /**
   * Once a rejection has left loading set, the select stays disabled: no later
   * choice changes the quality or the loading flag.
   */
  lemma {:induction false} StuckStaysStuck(table: QualityTable, room: Option<RoomView>, s: Settings, chs: seq<Choice>)
    requires s.loading
    ensures RunChoices(table, room, s, chs) == s
    decreases |chs|
  {
    if |chs| > 0 {
      StuckStaysStuck(table, room, s, chs[..|chs| - 1]);
    }
  }

  predicate NoRejection(ch: Choice)
  {
    ch.created.Resolved? && ch.replaced == Resolves
  }

  /**
   * When no promise rejects, the select is enabled after every choice, and it
   * shows the last choice made while a room exists.
   */
  lemma {:induction false} NoRejectionKeepsEnabled(table: QualityTable, room: Option<RoomView>, chs: seq<Choice>)
    requires forall i :: 0 <= i < |chs| ==> NoRejection(chs[i])
    ensures !RunChoices(table, room, InitialSettings, chs).loading
    ensures room.Some? && |chs| > 0 ==> RunChoices(table, room, InitialSettings, chs).quality == chs[|chs| - 1].newQuality
    ensures room.None? ==> RunChoices(table, room, InitialSettings, chs) == InitialSettings
    decreases |chs|
  {
    if |chs| > 0 {
      NoRejectionKeepsEnabled(table, room, chs[..|chs| - 1]);
      assert NoRejection(chs[|chs| - 1]);
    }
  }

  /** The component instance with its two `useState` cells. */
  class QualitySettings {
    var quality: SettingsKey
    var loading: bool

    constructor ()
      ensures quality == SAuto && !loading
    {
      quality := SAuto;
      loading := false;
    }

    function State(): Settings
      reads this
    {
      Settings(quality, loading)
    }

    /** `changeQuality(newQuality)`, from its call to the point where it returns or rejects. */
    method ChangeQuality(table: QualityTable, room: Option<RoomView>, newQuality: SettingsKey,
                         created: Await<MediaId>, replaced: Settle) returns (calls: seq<SdkCall>)
      modifies this
      ensures Change(State(), calls) == ChangeEffect(table, room, old(State()), newQuality, created, replaced)
    {
      calls := [];
      if room.None? {
        return;
      }
      loading := true;
      quality := newQuality;
      var publication := Find(room.value.publications, ByKind(Video));
      if publication.None? || !room.value.publications[publication.value].track.LocalVideo? {
        loading := false;
        return;
      }
      var track := room.value.publications[publication.value].track.video;
      calls := calls + [CreateLocalVideoTrack(ResolutionFor(table, newQuality))];
      if created.Rejected? {
        return;
      }
      calls := calls + [ReplaceTrack(track.id, created.value)];
      if replaced == Rejects {
        return;
      }
      loading := false;
    }
  }
}
