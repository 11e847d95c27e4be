/**
 * The pair-blend calibration primitive on the 0-10 scale: how far two judges' scores
 * are apart decides a confidence tier, the blend used, and whether a person should review.
 */
module PairBlend {
  import opened DebateTypes

  datatype Confidence = High | Medium | Low

  /** The result of `testScoreCalibration`. */
  datatype PairCalibration = PairCalibration(
    scoreDifference: real,
    confidence: Confidence,
    calibratedScore: real,
    needsReview: bool)

  /** `Math.max(lo, Math.min(hi, x))`. */
  function Clamp(x: real, lo: real, hi: real): (r: real)
    requires lo <= hi
    ensures lo <= r <= hi
    ensures lo <= x <= hi ==> r == x
    ensures x >= hi ==> r == hi
    ensures x <= lo ==> r == lo
  {
    if x > hi then hi else if x < lo then lo else x
  }

  /** The tier a disagreement of `difference` falls in: at most 0.5 high, at most 1.5 medium, else low. */
  function Tier(difference: real): Confidence {
    if difference <= 0.5 then High
    else if difference <= 1.5 then Medium
    else Low
  }

  /** The main judge counts for 60 percent, the assistant for 40. */
  function Weighted(main: real, assistant: real): real {
    main * 0.6 + assistant * 0.4
  }

  /**
   * `testScoreCalibration`: nothing if either score is missing; otherwise the distance,
   * its tier, the mean (high) or the 60/40 blend (medium, low) clamped to [0, 10],
   * and a review flag that is raised exactly for low confidence.
   */
  function TestScoreCalibration(main: Option<real>, assistant: Option<real>): (r: Option<PairCalibration>)
    ensures r.None? <==> main.None? || assistant.None?
    ensures r.Some? ==>
      var c := r.value;
      var d := main.value - assistant.value;
      && c.scoreDifference >= 0.0
      && (c.scoreDifference == d || c.scoreDifference == -d)
      && 0.0 <= c.calibratedScore <= 10.0
      && c.calibratedScore == Clamp(if c.confidence == High then (main.value + assistant.value) / 2.0
                                    else Weighted(main.value, assistant.value), 0.0, 10.0)
      && (c.needsReview <==> c.confidence == Low)
      && (c.confidence == High <==> c.scoreDifference <= 0.5)
      && (c.confidence == Medium <==> 0.5 < c.scoreDifference <= 1.5)
      && (c.confidence == Low <==> c.scoreDifference > 1.5)
  {
    match (main, assistant)
    case (Some(m), Some(a)) =>
      var difference := if m - a < 0.0 then a - m else m - a;
      var confidence := Tier(difference);
      var blended := if confidence == High then (m + a) / 2.0 else Weighted(m, a);
      Some(PairCalibration(difference, confidence, Clamp(blended, 0.0, 10.0), confidence == Low))
    case _ => None
  }

  /** The distance, and so the tier and the review flag, do not depend on which judge is main. */
  lemma DifferenceSymmetric(x: real, y: real)
    ensures var p := TestScoreCalibration(Some(x), Some(y)).value;
      var q := TestScoreCalibration(Some(y), Some(x)).value;
      p.scoreDifference == q.scoreDifference && p.confidence == q.confidence && p.needsReview == q.needsReview
  {
  }

  /**
   * With both scores on the 0-10 scale the clamp never bites: the result is the mean
   * when confidence is high and the 60/40 blend otherwise, and it lies between the two scores.
   */
  lemma BlendWithinScores(main: real, assistant: real)
    requires 0.0 <= main <= 10.0 && 0.0 <= assistant <= 10.0
    ensures var c := TestScoreCalibration(Some(main), Some(assistant)).value;
      && (c.confidence == High ==> c.calibratedScore == (main + assistant) / 2.0)
      && (c.confidence != High ==> c.calibratedScore == Weighted(main, assistant))
      && (main <= assistant ==> main <= c.calibratedScore <= assistant)
      && (assistant <= main ==> assistant <= c.calibratedScore <= main)
  {
  }

  /** The listed cases: 8.5/8.2 high, 7.8/6.5 medium, 9.0/6.0 low, 8.0/8.0 high, 7.5/6.0 medium. */
  lemma ListedCases()
    ensures TestScoreCalibration(Some(8.5), Some(8.2)) == Some(PairCalibration(0.3, High, 8.35, false))
    ensures TestScoreCalibration(Some(7.8), Some(6.5)) == Some(PairCalibration(1.3, Medium, 7.28, false))
    ensures TestScoreCalibration(Some(9.0), Some(6.0)) == Some(PairCalibration(3.0, Low, 7.8, true))
    ensures TestScoreCalibration(Some(8.0), Some(8.0)) == Some(PairCalibration(0.0, High, 8.0, false))
    ensures TestScoreCalibration(Some(7.5), Some(6.0)) == Some(PairCalibration(1.5, Medium, 6.9, false))
  {
  }
}
