/**
 * Two-referee calibration: the per-side totals across both referees, their distance,
 * and the final verdict taken from the totals.
 */
module Calibration {
  import opened DebateTypes
  import opened ScoreExtraction

  /** The source's `ScoreCalibration`: both inputs, the per-side totals and their distance. */
  datatype ScoreCalibration = ScoreCalibration(
    mainRefereeScores: ScoreDetails,
    assistantRefereeScores: ScoreDetails,
    totalScores: ScoreDetails,
    scoreDifference: real)

  function Abs(x: real): (r: real)
    ensures r >= 0.0 && (r == x || r == -x)
  {
    if x < 0.0 then -x else x
  }

  /** `calculateScoreCalibration`: nothing unless both referees scored; else totals and their distance. */
  function CalculateScoreCalibration(main: Option<ScoreDetails>, assistant: Option<ScoreDetails>)
    : (r: Option<ScoreCalibration>)
    ensures r.None? <==> main.None? || assistant.None?
    ensures r.Some? ==> r.value.mainRefereeScores == main.value && r.value.assistantRefereeScores == assistant.value
    ensures r.Some? ==>
      && r.value.totalScores.affirmativeScore == main.value.affirmativeScore + assistant.value.affirmativeScore
      && r.value.totalScores.negativeScore == main.value.negativeScore + assistant.value.negativeScore
    ensures r.Some? ==> r.value.scoreDifference >= 0.0
    ensures r.Some? ==>
      r.value.scoreDifference == r.value.totalScores.affirmativeScore - r.value.totalScores.negativeScore ||
      r.value.scoreDifference == r.value.totalScores.negativeScore - r.value.totalScores.affirmativeScore
  {
    match (main, assistant)
    case (Some(m), Some(a)) =>
      var totals := ScoreDetails(m.affirmativeScore + a.affirmativeScore, m.negativeScore + a.negativeScore);
      Some(ScoreCalibration(m, a, totals, Abs(totals.affirmativeScore - totals.negativeScore)))
    case _ => None
  }

  /** The finalisation verdict: the comparison of the totals, or none without a calibration. */
  function FinalWinner(calibration: Option<ScoreCalibration>): (w: Option<Winner>)
    ensures w.None? <==> calibration.None?
    ensures calibration.Some? ==>
      var t := calibration.value.totalScores;
      && (w == Some(AffirmativeWin) <==> t.affirmativeScore > t.negativeScore)
      && (w == Some(NegativeWin) <==> t.negativeScore > t.affirmativeScore)
      && (w == Some(Tie) <==> t.affirmativeScore == t.negativeScore)
  {
    match calibration
    case None => None
    case Some(c) => Some(ScoreWinner(c.totalScores))
  }

  /** With both referees on the 0-100 scale, each total lies in [0, 200] and so does their distance. */
  lemma TotalsInRange(main: ScoreDetails, assistant: ScoreDetails)
    requires InScale(main) && InScale(assistant)
    ensures var c := CalculateScoreCalibration(Some(main), Some(assistant)).value;
      && 0.0 <= c.totalScores.affirmativeScore <= 200.0
      && 0.0 <= c.totalScores.negativeScore <= 200.0
      && 0.0 <= c.scoreDifference <= 200.0
  {
  }

  /** Which referee is called main does not change the totals, the distance or the verdict. */
  lemma RefereeOrderIrrelevant(main: ScoreDetails, assistant: ScoreDetails)
    ensures var c := CalculateScoreCalibration(Some(main), Some(assistant)).value;
      var d := CalculateScoreCalibration(Some(assistant), Some(main)).value;
      && c.totalScores == d.totalScores
      && c.scoreDifference == d.scoreDifference
      && FinalWinner(Some(c)) == FinalWinner(Some(d))
  {
  }

  /** The side that both referees scored higher is the final winner; two ties give a tie. */
  lemma UnanimousVerdictStands(main: ScoreDetails, assistant: ScoreDetails)
    requires ScoreWinner(main) == ScoreWinner(assistant)
    ensures FinalWinner(CalculateScoreCalibration(Some(main), Some(assistant))) == Some(ScoreWinner(main))
  {
  }

  /** The final verdict is a tie exactly when the distance between the totals is zero. */
  lemma TieIffNoDifference(main: ScoreDetails, assistant: ScoreDetails)
    ensures var c := CalculateScoreCalibration(Some(main), Some(assistant));
      FinalWinner(c) == Some(Tie) <==> c.value.scoreDifference == 0.0
  {
  }

  /** Swapping the sides in both score pairs keeps the distance and swaps the final verdict. */
  lemma MirroredSides(main: ScoreDetails, assistant: ScoreDetails)
    ensures var c := CalculateScoreCalibration(Some(main), Some(assistant));
      var m := CalculateScoreCalibration(
        Some(ScoreDetails(main.negativeScore, main.affirmativeScore)),
        Some(ScoreDetails(assistant.negativeScore, assistant.affirmativeScore)));
      && m.value.scoreDifference == c.value.scoreDifference
      && (FinalWinner(c) == Some(AffirmativeWin) <==> FinalWinner(m) == Some(NegativeWin))
      && (FinalWinner(c) == Some(Tie) <==> FinalWinner(m) == Some(Tie))
  {
  }
}
