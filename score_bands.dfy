// The three-colour rule that both dashboard tables apply to a percentage:
// green from 80, amber from 60, red below.

module ScoreBands {
  datatype Band = Good | Fair | Poor

  function QualityBand(score: int): (b: Band)
    ensures b == Good <==> score >= 80
    ensures b == Fair <==> 60 <= score < 80
    ensures b == Poor <==> score < 60
  {
    if score >= 80 then Good else if score >= 60 then Fair else Poor
  }

  function Rank(b: Band): nat
  {
    match b
    case Poor => 0
    case Fair => 1
    case Good => 2
  }

  /** A higher score never gets a worse colour. */
  lemma QualityBandMonotone(p: int, q: int)
    requires p <= q
    ensures Rank(QualityBand(p)) <= Rank(QualityBand(q))
  {
  }
}
