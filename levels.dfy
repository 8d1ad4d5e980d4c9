/**
 * The quality-level choice made when the stream's manifest is parsed:
 * the first level whose bitrate is exactly the preferred one, otherwise
 * the last level the engine advertises.
 */
module Levels {
  import Search

  /** One bitrate rendition advertised by the streaming engine; its index is its position. */
  datatype QualityLevel = QualityLevel(bitrate: int)

  predicate Offers(levels: seq<QualityLevel>, bitrate: int) {
    exists i :: 0 <= i < |levels| && levels[i].bitrate == bitrate
  }

  predicate SortedByBitrate(levels: seq<QualityLevel>) {
    forall i, j :: 0 <= i < j < |levels| ==> levels[i].bitrate <= levels[j].bitrate
  }

  /**
   * The level index handed to the engine: the first exact bitrate match,
   * else `|levels| - 1` (which is -1, the engine's automatic choice, when
   * no level is advertised).
   */
  function ChooseLevel(levels: seq<QualityLevel>, preferred: int): (r: int)
    ensures -1 <= r < |levels|
    ensures Offers(levels, preferred) ==>
      0 <= r && levels[r].bitrate == preferred &&
      forall j :: 0 <= j < r ==> levels[j].bitrate != preferred
    ensures !Offers(levels, preferred) ==> r == |levels| - 1
  {
    var matching := Search.FindIndex(levels, (l: QualityLevel) => l.bitrate == preferred);
    if matching != -1 then matching else |levels| - 1
  }

  /** When the engine lists its levels in ascending bitrate, the fallback is the highest bitrate. */
  lemma FallbackIsHighest(levels: seq<QualityLevel>, preferred: int)
    requires SortedByBitrate(levels) && |levels| > 0 && !Offers(levels, preferred)
    ensures forall i :: 0 <= i < |levels| ==> levels[i].bitrate <= levels[ChooseLevel(levels, preferred)].bitrate
  {
  }
}
