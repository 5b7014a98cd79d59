/** `filter_audio_metadata`: the ten-argument row filter of the metadata
    table. A row is kept when it satisfies every criterion at once; the kept
    rows stay in table order. */
module AudioDataUtils {
  import opened Metadata
  import opened Selection

  /** The filter's arguments after the table. Ranges are `(lo, hi)` pairs and
      inclusive at both ends; each `isin` list is a set, since only membership
      in it matters. */
  datatype Criteria = Criteria(
    hearing: string,
    durationRange: (int, int),
    volumeRange: (real, real),
    fileTypes: set<string>,
    haTypes: set<string>,
    micPositions: set<string>,
    receivers: set<string>,
    wolaTypes: set<int>,
    channels: set<string>)

  /** One row of the boolean mask: the conjunction of all nine criteria. */
  predicate Matches(row: Row, c: Criteria)
  {
    && row.hearingAid == c.hearing
    && c.durationRange.0 <= row.durationSec && row.durationSec <= c.durationRange.1
    && c.volumeRange.0 <= row.volumeDb && row.volumeDb <= c.volumeRange.1
    && row.fileType in c.fileTypes
    && row.haType in c.haTypes
    && row.micPosition in c.micPositions
    && row.receiver in c.receivers
    && row.wolaType in c.wolaTypes
    && row.channel in c.channels
  }

  function Keep(c: Criteria): Row -> bool
  {
    row => Matches(row, c)
  }

  /** The rows of `t` that satisfy every criterion, in table order. */
  function FilterAudioMetadata(t: Table, c: Criteria): (r: Table)
    ensures |r| <= |t|
    ensures forall row :: row in r <==> row in t && Matches(row, c)
  {
    Select(t, Keep(c))
  }

  /** The result is the table read at the strictly increasing positions of its
      matching rows: an order-preserving subsequence that drops no match. */
  lemma FilterKeepsOrder(t: Table, c: Criteria)
    ensures PicksAt(FilterAudioMetadata(t, c), t, KeptPositions(t, Keep(c)))
    ensures forall i :: 0 <= i < |t| ==> (i in KeptPositions(t, Keep(c)) <==> Matches(t[i], c))
  {
    SelectPicks(t, Keep(c));
  }

  /** Every kept row has exactly the requested `hearing_aid` value. */
  lemma FilterHearing(t: Table, c: Criteria)
    ensures forall row :: row in FilterAudioMetadata(t, c) ==> row.hearingAid == c.hearing
  {
  }

  /** The duration bounds are inclusive on their own: a table row lasting
      exactly `lo` or `hi` seconds, with its volume anywhere in the volume range
      and passing the other conditions, is kept. */
  lemma FilterDurationBoundsInclusive(t: Table, c: Criteria, row: Row)
    requires row in t
    requires row.durationSec == c.durationRange.0 || row.durationSec == c.durationRange.1
    requires c.durationRange.0 <= c.durationRange.1
    requires c.volumeRange.0 <= row.volumeDb <= c.volumeRange.1
    requires row.hearingAid == c.hearing
    requires row.fileType in c.fileTypes && row.haType in c.haTypes
    requires row.micPosition in c.micPositions && row.receiver in c.receivers
    requires row.wolaType in c.wolaTypes && row.channel in c.channels
    ensures row in FilterAudioMetadata(t, c)
  {
  }

  /** The volume bounds are inclusive on their own: a table row at exactly `lo`
      or `hi` dB, with its duration anywhere in the duration range and passing
      the other conditions, is kept. */
  lemma FilterVolumeBoundsInclusive(t: Table, c: Criteria, row: Row)
    requires row in t
    requires row.volumeDb == c.volumeRange.0 || row.volumeDb == c.volumeRange.1
    requires c.volumeRange.0 <= c.volumeRange.1
    requires c.durationRange.0 <= row.durationSec <= c.durationRange.1
    requires row.hearingAid == c.hearing
    requires row.fileType in c.fileTypes && row.haType in c.haTypes
    requires row.micPosition in c.micPositions && row.receiver in c.receivers
    requires row.wolaType in c.wolaTypes && row.channel in c.channels
    ensures row in FilterAudioMetadata(t, c)
  {
  }

  /** An empty inclusion set rejects every row, whatever the other criteria. */
  lemma {:induction false} FilterEmptyInclusionSet(t: Table, c: Criteria)
    requires || c.fileTypes == {} || c.haTypes == {} || c.micPositions == {}
             || c.receivers == {} || c.wolaTypes == {} || c.channels == {}
    ensures FilterAudioMetadata(t, c) == []
  {
    if t != [] {
      FilterEmptyInclusionSet(t[1..], c);
    }
  }

  /** An inverted range (`lo > hi`) yields an empty result, not an error. */
  lemma {:induction false} FilterInvertedRange(t: Table, c: Criteria)
    requires c.durationRange.0 > c.durationRange.1 || c.volumeRange.0 > c.volumeRange.1
    ensures FilterAudioMetadata(t, c) == []
  {
    if t != [] {
      FilterInvertedRange(t[1..], c);
    }
  }

  /** Filtering a filtered table again with the same criteria changes nothing. */
  lemma FilterIdempotent(t: Table, c: Criteria)
    ensures FilterAudioMetadata(FilterAudioMetadata(t, c), c) == FilterAudioMetadata(t, c)
  {
    SelectNarrowing(t, Keep(c), Keep(c));
  }

  /** `wide` accepts everything `narrow` does: the same hearing value, ranges
      that contain `narrow`'s, and inclusion sets that contain `narrow`'s. */
  predicate Looser(narrow: Criteria, wide: Criteria)
  {
    && narrow.hearing == wide.hearing
    && wide.durationRange.0 <= narrow.durationRange.0 && narrow.durationRange.1 <= wide.durationRange.1
    && wide.volumeRange.0 <= narrow.volumeRange.0 && narrow.volumeRange.1 <= wide.volumeRange.1
    && narrow.fileTypes <= wide.fileTypes
    && narrow.haTypes <= wide.haTypes
    && narrow.micPositions <= wide.micPositions
    && narrow.receivers <= wide.receivers
    && narrow.wolaTypes <= wide.wolaTypes
    && narrow.channels <= wide.channels
  }

  /** Loosening criteria keeps every row selected before: the narrow result is
      the narrow filter applied to the wide result, so it is an
      order-preserving subsequence of it. */
  lemma FilterMonotone(t: Table, narrow: Criteria, wide: Criteria)
    requires Looser(narrow, wide)
    ensures FilterAudioMetadata(FilterAudioMetadata(t, wide), narrow) == FilterAudioMetadata(t, narrow)
    ensures forall row :: row in FilterAudioMetadata(t, narrow) ==> row in FilterAudioMetadata(t, wide)
    ensures |FilterAudioMetadata(t, narrow)| <= |FilterAudioMetadata(t, wide)|
  {
    SelectNarrowing(t, Keep(narrow), Keep(wide));
  }

  /** Two rows that differ in duration, volume and file type; only the first
      lies within duration [0, 30], volume [-48, -13] and file type {wav}. */
  lemma FilterTwoRowExample(a: Row, b: Row, c: Criteria)
    requires a.durationSec == 10 && a.volumeDb == -20.0 && a.fileType == "wav"
    requires b.durationSec == 50 && b.volumeDb == -40.0 && b.fileType == "pcm"
    requires c.durationRange == (0, 30) && c.volumeRange == (-48.0, -13.0)
    requires a.hearingAid == c.hearing && a.haType in c.haTypes && a.micPosition in c.micPositions
    requires a.receiver in c.receivers && a.wolaType in c.wolaTypes && a.channel in c.channels
    ensures c.fileTypes == {"wav"} ==> FilterAudioMetadata([a, b], c) == [a]
    ensures c.fileTypes == {} ==> FilterAudioMetadata([a, b], c) == []
  {
    assert [a, b][1..] == [b] && [b][1..] == [];
    assert !Keep(c)(b);
    assert Select([b], Keep(c)) == [];
    if c.fileTypes == {"wav"} {
      assert Keep(c)(a);
    }
  }
}
