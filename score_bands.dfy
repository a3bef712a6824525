/** Colour banding of scores on the dashboard (app/components/dashboard/utils.ts). */
module ScoreBands {

  /** The four bands, best first. */
  datatype Band = Excellent | Good | Fair | Weak

  /** The band a score falls in: at least 90, at least 80, at least 70, below 70. */
  function BandOf(score: int): (b: Band)
    ensures b == Excellent <==> score >= 90
    ensures b == Good <==> 80 <= score < 90
    ensures b == Fair <==> 70 <= score < 80
    ensures b == Weak <==> score < 70
  {
    if score >= 90 then Excellent
    else if score >= 80 then Good
    else if score >= 70 then Fair
    else Weak
  }

  /** Position of a band from best (0) to worst (3). */
  function Rank(b: Band): nat {
    match b
    case Excellent => 0
    case Good => 1
    case Fair => 2
    case Weak => 3
  }

  /** `getScoreColor`. */
  function ScoreColor(score: int): (cls: string)
    ensures cls in {"text-green-600", "text-blue-600", "text-yellow-600", "text-red-600"}
  {
    if score >= 90 then "text-green-600"
    else if score >= 80 then "text-blue-600"
    else if score >= 70 then "text-yellow-600"
    else "text-red-600"
  }

  /** `getScoreBgColor`. */
  function ScoreBgColor(score: int): (cls: string)
    ensures cls in {"bg-green-100", "bg-blue-100", "bg-yellow-100", "bg-red-100"}
  {
    if score >= 90 then "bg-green-100"
    else if score >= 80 then "bg-blue-100"
    else if score >= 70 then "bg-yellow-100"
    else "bg-red-100"
  }

  /** The text class of each band. */
  function TextClass(b: Band): string {
    match b
    case Excellent => "text-green-600"
    case Good => "text-blue-600"
    case Fair => "text-yellow-600"
    case Weak => "text-red-600"
  }

  /** The background class of each band. */
  function BgClass(b: Band): string {
    match b
    case Excellent => "bg-green-100"
    case Good => "bg-blue-100"
    case Fair => "bg-yellow-100"
    case Weak => "bg-red-100"
  }

  /** Both functions pick the colour of the score's band, so they always
      agree on the band. */
  lemma ColoursFollowBand(score: int)
    ensures ScoreColor(score) == TextClass(BandOf(score))
    ensures ScoreBgColor(score) == BgClass(BandOf(score))
  {
  }

  /** Different bands have different colours, in both palettes. */
  lemma ColoursDistinguishBands(b: Band, c: Band)
    requires b != c
    ensures TextClass(b) != TextClass(c) && BgClass(b) != BgClass(c)
  {
    assert TextClass(Excellent)[5] == 'g' && TextClass(Good)[5] == 'b';
    assert TextClass(Fair)[5] == 'y' && TextClass(Weak)[5] == 'r';
    assert BgClass(Excellent)[3] == 'g' && BgClass(Good)[3] == 'b';
    assert BgClass(Fair)[3] == 'y' && BgClass(Weak)[3] == 'r';
  }

  /** Two scores get the same text colour exactly when they get the same
      background colour. */
  lemma SameBandInBothPalettes(x: int, y: int)
    ensures ScoreColor(x) == ScoreColor(y) <==> ScoreBgColor(x) == ScoreBgColor(y)
  {
    ColoursFollowBand(x);
    ColoursFollowBand(y);
    if BandOf(x) != BandOf(y) {
      ColoursDistinguishBands(BandOf(x), BandOf(y));
    }
  }

  /** A higher score never lands in a worse band. */
  lemma BandingIsMonotone(x: int, y: int)
    requires x <= y
    ensures Rank(BandOf(y)) <= Rank(BandOf(x))
  {
  }
}
