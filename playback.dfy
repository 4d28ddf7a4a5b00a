/**
 * The two playback speeds both front ends offer: normal speed and one eighth of it.
 * Rates are kept as an enumeration; `RateThousandths` gives the player rate they stand for.
 */
module Playback {
  datatype Speed = Normal | Eighth

  /** The player rate of a speed, in thousandths (1.0 and 0.125). */
  function RateThousandths(s: Speed): (r: nat)
    ensures 0 < r <= 1000
    ensures r == 1000 <==> s == Normal
    ensures s == Eighth ==> 8 * r == 1000
  {
    match s
    case Normal => 1000
    case Eighth => 125
  }
}
