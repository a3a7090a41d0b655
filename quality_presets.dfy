/**
 * The closed set of quality keys and the preset table
 * (VIDEO_QUALITY_PRESETS), a record from key to an optional target resolution.
 */
module VideoQualityPresets {
  import opened Sdk

  /** VideoQualityKey. The context's VideoQuality type names the same four strings. */
  datatype QualityKey = Auto | Q720 | Q480 | Q360

  /** The string each key is at run time. */
  function KeyName(k: QualityKey): (s: string)
    ensures ParseKey(s) == Some(k)
  {
    match k
    case Auto => "auto"
    case Q720 => "720p"
    case Q480 => "480p"
    case Q360 => "360p"
  }

  /** Which key, if any, a string is. */
  function ParseKey(s: string): (r: Option<QualityKey>)
    ensures r.Some? <==> s in {"auto", "720p", "480p", "360p"}
  {
    if s == "auto" then Some(Auto)
    else if s == "720p" then Some(Q720)
    else if s == "480p" then Some(Q480)
    else if s == "360p" then Some(Q360)
    else None
  }

  /** An entry of the table: `{}` for auto, `{ resolution }` otherwise. */
  datatype Preset = Preset(resolution: Option<Resolution>)

  /** The table as the JavaScript object it is: string keys in literal order auto, 720p, 480p, 360p. */
  function Table(sdk: SdkPresets): (t: map<string, Preset>)
    ensures t.Keys == {"auto", "720p", "480p", "360p"}
    ensures forall s :: s in t ==> ParseKey(s).Some?
  {
    map[
      "auto" := Preset(None),
      "720p" := Preset(Some(sdk.h720)),
      "480p" := Preset(Some(Resolution(854, 480, Some(30)))),
      "360p" := Preset(Some(sdk.h360))
    ]
  }

  /** The keys in the order Object.entries yields them (the literal's order; none is an array index). */
  const EntryOrder: seq<QualityKey> := [Auto, Q720, Q480, Q360]

  predicate Distinct(ks: seq<QualityKey>)
  {
    forall i, j :: 0 <= i < j < |ks| ==> ks[i] != ks[j]
  }

  /** JavaScript property access: `undefined` for a key the object does not have. */
  function Lookup(t: map<string, Preset>, name: string): Option<Preset>
  {
    if name in t then Some(t[name]) else None
  }

  /** An object is truthy whatever its members, even `{}`; only `undefined` is falsy. */
  predicate Truthy(p: Option<Preset>)
  {
    p.Some?
  }

  /** `VIDEO_QUALITY_PRESETS[q]`. */
  function PresetFor(sdk: SdkPresets, k: QualityKey): (p: Option<Preset>)
    ensures Truthy(p)
    ensures p.value.resolution.None? <==> k == Auto
    ensures k == Q720 ==> p.value.resolution == Some(sdk.h720)
    ensures k == Q480 ==> p.value.resolution == Some(Resolution(854, 480, Some(30)))
    ensures k == Q360 ==> p.value.resolution == Some(sdk.h360)
    ensures ValidPresets(sdk) && k != Auto ==> PositiveResolution(p.value.resolution.value)
  {
    Lookup(Table(sdk), KeyName(k))
  }

  /** Each key has its place in the entry order. */
  lemma KeyListed(k: QualityKey)
    ensures k in EntryOrder
  {
    match k
    case Auto => assert EntryOrder[0] == k;
    case Q720 => assert EntryOrder[1] == k;
    case Q480 => assert EntryOrder[2] == k;
    case Q360 => assert EntryOrder[3] == k;
  }

  /** Every key of the table is one of the four keys, each exactly once, in EntryOrder. */
  lemma EntryOrderIsTheKeySet(sdk: SdkPresets)
    ensures Distinct(EntryOrder)
    ensures forall k: QualityKey :: k in EntryOrder
    ensures forall i :: 0 <= i < |EntryOrder| ==> KeyName(EntryOrder[i]) in Table(sdk)
    ensures forall s :: s in Table(sdk) ==> ParseKey(s).value in EntryOrder
  {
    forall k: QualityKey ensures k in EntryOrder {
      KeyListed(k);
    }
  }
}
