/** The codec plan: which codec labels to fetch for every song, from the
    user's choices and the labels the album advertises (src/parser/utils.py,
    and the identical copy in utils.py). */
module Codecs {
  import opened Common

  /** The lossy label is fetched when it is offered and either asked for,
      or the fallback for an album with no lossless label when lossless is
      not suppressed. */
  predicate IncludesLossy(choices: CodecChoices, formats: CodecFormats) {
    formats.lossy.Some? && (choices.lossy || (!choices.noLossless && formats.lossless.None?))
  }

  /** The lossless label is fetched when it is offered and not suppressed. */
  predicate IncludesLossless(choices: CodecChoices, formats: CodecFormats) {
    !choices.noLossless && formats.lossless.Some?
  }

  /** The plan as the three conditional appends build it. */
  function CodecsToDownload(choices: CodecChoices, formats: CodecFormats): (plan: seq<string>)
    ensures |plan| == (if IncludesLossy(choices, formats) then 1 else 0)
                      + (if IncludesLossless(choices, formats) then 1 else 0)
    ensures IncludesLossy(choices, formats) ==> plan[0] == formats.lossy.value
    ensures IncludesLossless(choices, formats) ==> plan[|plan| - 1] == formats.lossless.value
  {
    (if choices.lossy && formats.lossy.Some? then [formats.lossy.value] else [])
    + (if !choices.noLossless && formats.lossless.Some? then [formats.lossless.value] else [])
    + (if !choices.noLossless && !choices.lossy && formats.lossless.None? && formats.lossy.Some?
       then [formats.lossy.value] else [])
  }

  /** get_codecs_to_download: up to three appends to an empty list. */
  method GetCodecsToDownload(choices: CodecChoices, formats: CodecFormats) returns (plan: seq<string>)
    ensures plan == CodecsToDownload(choices, formats)
  {
    plan := [];
    if choices.lossy && formats.lossy.Some? {
      plan := plan + [formats.lossy.value];
    }
    if !choices.noLossless && formats.lossless.Some? {
      plan := plan + [formats.lossless.value];
    }
    if !choices.noLossless && !choices.lossy && formats.lossless.None? && formats.lossy.Some? {
      plan := plan + [formats.lossy.value];
    }
  }

  /** Every planned label is one of the advertised ones, at most two are
      planned, and with labels from the two disjoint families none repeats. */
  lemma PlanShape(choices: CodecChoices, formats: CodecFormats)
    requires WellFormedFormats(formats)
    ensures var plan := CodecsToDownload(choices, formats);
      && |plan| <= 2
      && (forall c :: c in plan ==> Some(c) == formats.lossy || Some(c) == formats.lossless)
      && (forall i, j :: 0 <= i < j < |plan| ==> plan[i] != plan[j])
  {
    var plan := CodecsToDownload(choices, formats);
    if |plan| == 2 {
      assert plan == [formats.lossy.value, formats.lossless.value];
      assert formats.lossy.value != formats.lossless.value by {
        assert formats.lossy.value in LOSSY_AUDIO_CODECS;
      }
    }
  }

  /** --no-lossless without --lossy plans nothing, whatever the album offers. */
  lemma NoLosslessWithoutLossyIsEmpty(formats: CodecFormats)
    ensures CodecsToDownload(CodecChoices(false, true), formats) == []
  {
  }

  /** The default choices: lossless when offered, else lossy, else nothing. */
  lemma DefaultPlan(formats: CodecFormats)
    ensures var plan := CodecsToDownload(CodecChoices(false, false), formats);
      && (formats.lossless.Some? ==> plan == [formats.lossless.value])
      && (formats.lossless.None? && formats.lossy.Some? ==> plan == [formats.lossy.value])
      && (formats.lossless.None? && formats.lossy.None? ==> plan == [])
  {
  }

  /** --lossy with both labels offered plans lossy first, then lossless. */
  lemma LossyAndLossless(lossy: string, lossless: string)
    ensures CodecsToDownload(CodecChoices(true, false), CodecFormats(Some(lossy), Some(lossless)))
      == [lossy, lossless]
  {
  }

  /** --lossy on an album without a lossless label plans the lossy label once, not twice. */
  lemma LossyWithoutLossless(lossy: string)
    ensures CodecsToDownload(CodecChoices(true, false), CodecFormats(Some(lossy), None)) == [lossy]
  {
  }
}
