/**
 * The metronome of include/Conductor.h: the song's tempo, length and offset,
 * and the beat count derived from them. Time points and durations come from
 * a header that is not part of this model; they are integers of
 * milliseconds here. `double` and `float` are `real`, without rounding.
 */
module Conductor {

  /** `class Conductor`. The leading underscores of the C++ field names are dropped. */
  class Conductor {
    var startTime: int
    var currTime: int
    var timeDiff: int
    var bpm: int
    var offsetInMs: int
    var lengthInS: real
    var totalBeats: real
    var offsetBeats: real
    var currBeat: real
    var beatSinceRefresh: real
    var numBeatsSinceRefresh: real

    /** `calcTotalBeats`: the beats in `lengthInS` seconds at `bpm` beats a minute. It reads no field. */
    function CalcTotalBeats(lengthInS: real, bpm: int): (r: real)
      ensures r * 60.0 == lengthInS * bpm as real
    {
      (lengthInS / 60.0) * bpm as real
    }

    /** `Conductor()`: no field is set. */
    constructor Default()
    {
    }

    /** `Conductor(bpm, lengthInS, offsetInMs)`: stores the three song parameters and nothing else. */
    constructor (bpm: int, lengthInS: real, offsetInMs: int)
      ensures this.bpm == bpm && this.lengthInS == lengthInS && this.offsetInMs == offsetInMs
    {
      this.bpm := bpm;
      this.lengthInS := lengthInS;
      this.offsetInMs := offsetInMs;
    }

    /** A song of `minutes` whole minutes holds `minutes * bpm` beats. */
    lemma WholeMinutes(minutes: int, bpm: int)
      ensures CalcTotalBeats(60.0 * minutes as real, bpm) == (minutes * bpm) as real
    {
      var r := CalcTotalBeats(60.0 * minutes as real, bpm);
      assert r * 60.0 == 60.0 * (minutes * bpm) as real;
    }

    /** The beat count of two stretches of a song played back to back is the sum of their counts. */
    lemma TotalBeatsAdd(a: real, b: real, bpm: int)
      ensures CalcTotalBeats(a + b, bpm) == CalcTotalBeats(a, bpm) + CalcTotalBeats(b, bpm)
    {
      var ra, rb, rab := CalcTotalBeats(a, bpm), CalcTotalBeats(b, bpm), CalcTotalBeats(a + b, bpm);
      assert (ra + rb) * 60.0 == (a + b) * bpm as real;
    }

    /** At a non-negative tempo a longer song never has fewer beats. */
    lemma TotalBeatsMonotone(a: real, b: real, bpm: int)
      requires a <= b && bpm >= 0
      ensures CalcTotalBeats(a, bpm) <= CalcTotalBeats(b, bpm)
    {
      TotalBeatsAdd(a, b - a, bpm);
      assert CalcTotalBeats(b - a, bpm) * 60.0 == (b - a) * bpm as real;
    }
  }
}
