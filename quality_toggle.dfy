/**
 * VideoQualityToggle: a gear button that opens a menu of the preset keys; a
 * menu item rewrites the camera sender's encoder parameters and, once the
 * sender accepts them, records the key in the shared quality cell and closes
 * the menu.
 */
module VideoQualityToggle {
  import opened Sdk
  import opened VideoQualityPresets
  import opened VideoQualityContext

  /** `params.encodings?.[0]` as a spread source: the first entry, or no members at all. */
  function FirstEncoding(p: SendParameters): Encoding
  {
    if |p.encodings| > 0 then p.encodings[0] else NoEncoding
  }

  /** `x?.width ?? 0` and `x?.height ?? 0` for the preset's optional resolution. */
  function WidthOrZero(p: Preset): int
  {
    if p.resolution.Some? then p.resolution.value.width else 0
  }

  function HeightOrZero(p: Preset): int
  {
    if p.resolution.Some? then p.resolution.value.height else 0
  }

  /** `preset.resolution?.frameRate`. */
  function FrameRateOf(p: Preset): Option<int>
  {
    if p.resolution.Some? then p.resolution.value.frameRate else None
  }

  /**
   * The truthy branch: `encodings` becomes a one-element array holding the old
   * first entry's members with maxBitrate and maxFramerate overwritten.
   */
  function RewriteEncodings(p: SendParameters, preset: Preset): SendParameters
  {
    var first := FirstEncoding(p);
    p.(encodings := [first.(maxBitrate := Some(WidthOrZero(preset) * HeightOrZero(preset) * 1000),
                            maxFramerate := FrameRateOf(preset))])
  }

  /** The falsy branch: delete maxBitrate and maxFramerate from the first entry, if there is one. */
  function DropLimits(p: SendParameters): (r: SendParameters)
    ensures |r.encodings| == |p.encodings| && r.others == p.others
    ensures forall i :: 1 <= i < |p.encodings| ==> r.encodings[i] == p.encodings[i]
    ensures |p.encodings| > 0 ==> r.encodings[0] == p.encodings[0].(maxBitrate := None, maxFramerate := None)
  {
    if |p.encodings| == 0 then p
    else p.(encodings := [p.encodings[0].(maxBitrate := None, maxFramerate := None)] + p.encodings[1..])
  }

  /**
   * The parameters applyQuality hands to setParameters for key `q`, given what
   * getParameters returned. The preset is always truthy, so the result always
   * comes from the rewrite: one encoding, the old first entry's other members
   * kept, and a bit rate of width * height * 1000. For `auto`, whose preset is
   * `{}`, both dimensions default to 0, so the bit rate is 0 and the frame rate
   * is undefined.
   */
  function EncoderRequest(sdk: SdkPresets, q: QualityKey, p: SendParameters): (r: SendParameters)
    ensures |r.encodings| == 1 && r.others == p.others
    ensures r.encodings[0].others == FirstEncoding(p).others
    ensures q == Auto ==> r.encodings[0].maxBitrate == Some(0) && r.encodings[0].maxFramerate == None
    ensures q == Q480 ==> r.encodings[0].maxBitrate == Some(409_920_000) && r.encodings[0].maxFramerate == Some(30)
    ensures q == Q720 ==> (r.encodings[0].maxBitrate == Some(sdk.h720.width * sdk.h720.height * 1000)
                           && r.encodings[0].maxFramerate == sdk.h720.frameRate)
    ensures q == Q360 ==> (r.encodings[0].maxBitrate == Some(sdk.h360.width * sdk.h360.height * 1000)
                           && r.encodings[0].maxFramerate == sdk.h360.frameRate)
    ensures ValidPresets(sdk) && q != Auto ==> r.encodings[0].maxBitrate.value > 0
  {
    var preset := PresetFor(sdk, q);
    if !Truthy(preset) then DropLimits(p) else RewriteEncodings(p, preset.value)
  }

  /**
   * For `auto` the falsy branch is never taken: the request differs from
   * dropping the limits, since it sets a bit rate of 0 where dropping would
   * leave none.
   */
  lemma AutoNeverDropsLimits(sdk: SdkPresets, p: SendParameters)
    ensures EncoderRequest(sdk, Auto, p) != DropLimits(p)
  {
  }

  /** Choosing the same key again requests the same parameters. */
  lemma EncoderRequestIdempotent(sdk: SdkPresets, q: QualityKey, p: SendParameters)
    ensures EncoderRequest(sdk, q, EncoderRequest(sdk, q, p)) == EncoderRequest(sdk, q, p)
  {
  }

  /**
   * `publication.track.sender` for the first camera publication: absent when
   * there is no such publication, when its track is not a LocalVideoTrack, or
   * when that track has no sender.
   */
  function CameraSender(pubs: seq<Publication>): (r: Option<Sender>)
    ensures r.None? <==> FindLocalVideo(pubs, BySource(Camera)).None?
                         || FindLocalVideo(pubs, BySource(Camera)).value.sender.None?
    ensures r.Some? ==> r == FindLocalVideo(pubs, BySource(Camera)).value.sender
  {
    match FindLocalVideo(pubs, BySource(Camera))
    case None => None
    case Some(v) => v.sender
  }

  /** One menu button: its key, its caption (`q.toUpperCase()`) and whether it carries the active class. */
  datatype MenuItem = MenuItem(key: QualityKey, caption: string, active: bool)

  /** `toUpperCase` on one ASCII character. */
  function UpperChar(c: char): char
  {
    if 'a' <= c <= 'z' then (c as int - 32) as char else c
  }

  /** `toUpperCase` on the ASCII key names: each character upper-cased in place. */
  function UpperAscii(s: string): (r: string)
    ensures |r| == |s|
    ensures forall i :: 0 <= i < |s| ==> r[i] == UpperChar(s[i])
  {
    if |s| == 0 then ""
    else [UpperChar(s[0])] + UpperAscii(s[1..])
  }

  /** Upper-casing leaves no lower-case ASCII letter, and keeps every character that is not one. */
  lemma NoLowerCaseLeft(s: string)
    ensures forall i :: 0 <= i < |s| ==> !('a' <= UpperAscii(s)[i] <= 'z')
    ensures forall i :: 0 <= i < |s| && !('a' <= s[i] <= 'z') ==> UpperAscii(s)[i] == s[i]
  {
  }

  /** The four captions the menu shows. */
  lemma Captions()
    ensures UpperAscii(KeyName(Auto)) == "AUTO"
    ensures UpperAscii(KeyName(Q720)) == "720P"
    ensures UpperAscii(KeyName(Q480)) == "480P"
    ensures UpperAscii(KeyName(Q360)) == "360P"
  {
  }

  /** The menu's `map` over the keys: one button per key, active exactly when it is the current quality. */
  function MenuItems(keys: seq<QualityKey>, current: QualityKey): (items: seq<MenuItem>)
    ensures |items| == |keys|
    ensures forall i :: 0 <= i < |keys| ==> items[i].key == keys[i]
    ensures forall i :: 0 <= i < |keys| ==> items[i].caption == UpperAscii(KeyName(keys[i]))
    ensures forall i :: 0 <= i < |keys| ==> (items[i].active <==> keys[i] == current)
  {
    if |keys| == 0 then []
    else [MenuItem(keys[0], UpperAscii(KeyName(keys[0])), keys[0] == current)] + MenuItems(keys[1..], current)
  }

  function ActiveCount(items: seq<MenuItem>): nat
  {
    if |items| == 0 then 0 else (if items[0].active then 1 else 0) + ActiveCount(items[1..])
  }

  lemma {:induction false} NoItemActive(keys: seq<QualityKey>, current: QualityKey)
    requires current !in keys
    ensures ActiveCount(MenuItems(keys, current)) == 0
  {
    if |keys| > 0 {
      NoItemActive(keys[1..], current);
      assert MenuItems(keys, current)[1..] == MenuItems(keys[1..], current);
    }
  }

  /** Over distinct keys that include the current quality, exactly one button is active. */
  lemma {:induction false} ExactlyOneItemActive(keys: seq<QualityKey>, current: QualityKey)
    requires Distinct(keys) && current in keys
    ensures ActiveCount(MenuItems(keys, current)) == 1
  {
    var items := MenuItems(keys, current);
    assert items[1..] == MenuItems(keys[1..], current);
    if keys[0] == current {
      assert current !in keys[1..] by {
        forall j | 0 <= j < |keys[1..]| ensures keys[1..][j] != current {
          assert keys[1..][j] == keys[j + 1];
        }
      }
      NoItemActive(keys[1..], current);
    } else {
      assert current in keys[1..] by {
        var i :| 0 <= i < |keys| && keys[i] == current;
        assert keys[1..][i - 1] == current;
      }
      assert Distinct(keys[1..]) by {
        forall i, j | 0 <= i < j < |keys[1..]| ensures keys[1..][i] != keys[1..][j] {
          assert keys[1..][i] == keys[i + 1] && keys[1..][j] == keys[j + 1];
        }
      }
      ExactlyOneItemActive(keys[1..], current);
    }
  }

  class QualityToggle {
    var open: bool
    const cell: QualityCell

    /** The component as mounted under a provider whose cell is `cell`: the menu starts closed. */
    constructor (cell: QualityCell)
      ensures !open && this.cell == cell
    {
      open := false;
      this.cell := cell;
    }

    /** The gear button: `setOpen(o => !o)`. */
    method ToggleMenu()
      modifies this
      ensures open == !old(open)
    {
      open := !open;
    }

    /** The buttons rendered: none while closed; otherwise one per preset entry, the current key's active. */
    function Menu(): (items: seq<MenuItem>)
      reads this, cell
      ensures !open ==> items == []
      ensures open ==> |items| == |EntryOrder| && ActiveCount(items) == 1
      ensures open ==> forall i :: 0 <= i < |items| ==>
        items[i].key == EntryOrder[i] && items[i].caption == UpperAscii(KeyName(EntryOrder[i]))
      ensures open ==> forall i :: 0 <= i < |items| ==> (items[i].active <==> items[i].key == cell.quality)
    {
      if open then
        KeyListed(cell.quality);
        ExactlyOneItemActive(EntryOrder, cell.quality);
        MenuItems(EntryOrder, cell.quality)
      else []
    }

    /**
     * `applyQuality(q)`. With no room, no camera publication, a track that is
     * not a LocalVideoTrack, or no sender, it returns before calling
     * setParameters. Otherwise it calls setParameters once with the rewritten
     * parameters; only if that promise resolves are the quality set and the
     * menu closed. A rejection leaves both as they were.
     */
    method ApplyQuality(sdk: SdkPresets, room: Option<RoomView>, q: QualityKey, setOutcome: Settle)
      returns (calls: seq<SdkCall>)
      modifies this, cell
      ensures var sender := if room.Some? then CameraSender(room.value.publications) else None;
              calls == if sender.None? then []
                       else [SetParameters(FindLocalVideo(room.value.publications, BySource(Camera)).value.id,
                                           EncoderRequest(sdk, q, sender.value.parameters))]
      ensures var applied := calls != [] && setOutcome == Resolves;
              cell.quality == (if applied then q else old(cell.quality))
              && open == (if applied then false else old(open))
    {
      calls := [];
      if room.None? {
        return;
      }
      var publication := Find(room.value.publications, BySource(Camera));
      if publication.None? || !room.value.publications[publication.value].track.LocalVideo? {
        return;
      }
      var track := room.value.publications[publication.value].track.video;
      var sender := track.sender;
      if sender.None? {
        return;
      }
      var params := sender.value.parameters;
      var preset := PresetFor(sdk, q);
      if !Truthy(preset) {
        params := DropLimits(params);
      } else {
        params := RewriteEncodings(params, preset.value);
      }
      calls := [SetParameters(track.id, params)];
      if setOutcome == Rejects {
        return;
      }
      cell.SetQuality(q);
      open := false;
    }
  }
}
