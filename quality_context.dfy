/**
 * The shared quality cell (VideoQualityProvider) and the useVideoQuality hook.
 * Every consumer under one provider holds the same QualityCell object, so a
 * value set through one of them is the value every other one reads.
 */
module VideoQualityContext {
  import opened Sdk
  import opened VideoQualityPresets

  /** The provider's `useState<VideoQuality>('auto')` cell. */
  class QualityCell {
    var quality: QualityKey

    constructor ()
      ensures quality == Auto
    {
      quality := Auto;
    }

    /** `setQuality(q)`: no validation beyond the key being one of the four. */
    method SetQuality(q: QualityKey)
      modifies this
      ensures quality == q
    {
      quality := q;
    }
  }

  const OutsideProviderMessage: string := "useVideoQuality must be used inside VideoQualityProvider"

  /**
   * `useVideoQuality()` at a point of the component tree whose enclosing
   * providers, outermost first, are `enclosing`: React's useContext yields the
   * innermost one, or the default `null` when there is none, and the hook
   * throws on `null`.
   */
  function UseVideoQuality(enclosing: seq<QualityCell>): (r: Result<QualityCell, string>)
    ensures r.Failure? <==> |enclosing| == 0
    ensures r.Failure? ==> r.error == OutsideProviderMessage
    ensures r.Success? ==> r.value == enclosing[|enclosing| - 1]
  {
    if |enclosing| == 0 then Failure(OutsideProviderMessage)
    else Success(enclosing[|enclosing| - 1])
  }

  /** Two consumers under the same innermost provider read the same quality. */
  lemma ConsumersAgree(a: seq<QualityCell>, b: seq<QualityCell>)
    requires |a| > 0 && |b| > 0 && a[|a| - 1] == b[|b| - 1]
    ensures UseVideoQuality(a).Success? && UseVideoQuality(b).Success?
    ensures UseVideoQuality(a).value.quality == UseVideoQuality(b).value.quality
  {
  }
}
