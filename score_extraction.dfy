/**
 * Reading a referee's answer: one validated score per side, and a verdict that an
 * explicit declaration in the text decides before the scores do.
 */
module ScoreExtraction {
  import opened DebateTypes
  import opened TextSearch

  /** The neutral score a side gets when its label is missing or its value is off the scale. */
  const DefaultScore: real := 70.0

  /**
   * A referee's answer as the score pattern sees it: the text, and for each side the
   * number that follows that side's label (`正方得分：`, `反方得分：`), if the label is there.
   */
  datatype RefereeAnswer = RefereeAnswer(text: string, affirmativeMatch: Option<real>, negativeMatch: Option<real>)

  /** The verdict marker each referee is asked to write before its decision. */
  const MainVerdictLabel: string := "获胜方："
  const AssistantVerdictLabel: string := "推荐获胜方："

  /** The three decisions a verdict marker can be followed by. */
  const AffirmativeName: string := "正方"
  const NegativeName: string := "反方"
  const TieName: string := "平局"

  /** One side's score: the number found, unless it is missing or outside [0, 100]. */
  function ValidatedScore(found: Option<real>): (s: real)
    ensures 0.0 <= s <= 100.0
    ensures found.Some? && 0.0 <= found.value <= 100.0 ==> s == found.value
    ensures found.None? || found.value < 0.0 || found.value > 100.0 ==> s == DefaultScore
  {
    match found
    case None => DefaultScore
    case Some(v) => if v > 100.0 || v < 0.0 then DefaultScore else v
  }

  /** The referee's score pair; each side is validated on its own. */
  function ExtractScores(answer: RefereeAnswer): (s: ScoreDetails)
    ensures InScale(s)
    ensures s.affirmativeScore == ValidatedScore(answer.affirmativeMatch)
    ensures s.negativeScore == ValidatedScore(answer.negativeMatch)
  {
    ScoreDetails(ValidatedScore(answer.affirmativeMatch), ValidatedScore(answer.negativeMatch))
  }

  /** The verdict decided by the scores alone: the higher score wins, equal scores tie. */
  function ScoreWinner(s: ScoreDetails): (w: Winner)
    ensures w == AffirmativeWin <==> s.affirmativeScore > s.negativeScore
    ensures w == NegativeWin <==> s.negativeScore > s.affirmativeScore
    ensures w == Tie <==> s.affirmativeScore == s.negativeScore
  {
    if s.affirmativeScore > s.negativeScore then AffirmativeWin
    else if s.negativeScore > s.affirmativeScore then NegativeWin
    else Tie
  }

  /** The verdict the text declares after `marker`, trying affirmative, then negative, then tie. */
  function DeclaredVerdict(text: string, marker: string): Option<Winner> {
    if Contains(text, marker + AffirmativeName) then Some(AffirmativeWin)
    else if Contains(text, marker + NegativeName) then Some(NegativeWin)
    else if Contains(text, marker + TieName) then Some(Tie)
    else None
  }

  /**
   * The referee's verdict: a declaration in the text if there is one (an affirmative one
   * first, then a negative one, then a tie), else the score comparison.
   */
  function ExtractWinner(text: string, marker: string, scores: ScoreDetails): (w: Winner)
    ensures (exists i :: OccursAt(text, marker + AffirmativeName, i)) ==> w == AffirmativeWin
    ensures w == AffirmativeWin ==>
      (exists i :: OccursAt(text, marker + AffirmativeName, i)) || scores.affirmativeScore > scores.negativeScore
    ensures w == NegativeWin ==>
      (exists i :: OccursAt(text, marker + NegativeName, i)) || scores.negativeScore > scores.affirmativeScore
    ensures w == Tie ==>
      (exists i :: OccursAt(text, marker + TieName, i)) || scores.affirmativeScore == scores.negativeScore
    ensures (forall i :: !OccursAt(text, marker + AffirmativeName, i)) ==>
              (exists i :: OccursAt(text, marker + NegativeName, i)) ==> w == NegativeWin
    ensures (forall i :: !OccursAt(text, marker + AffirmativeName, i) && !OccursAt(text, marker + NegativeName, i)) ==>
              (exists i :: OccursAt(text, marker + TieName, i)) ==> w == Tie
    ensures (forall i :: !OccursAt(text, marker + AffirmativeName, i) && !OccursAt(text, marker + NegativeName, i)
                         && !OccursAt(text, marker + TieName, i))
            ==> w == ScoreWinner(scores)
  {
    ContainsIffOccurs(text, marker + AffirmativeName);
    ContainsIffOccurs(text, marker + NegativeName);
    ContainsIffOccurs(text, marker + TieName);
    match DeclaredVerdict(text, marker)
    case Some(v) => v
    case None => ScoreWinner(scores)
  }

  /** Whatever one side's match is, the other side's score does not depend on it. */
  lemma SidesIndependent(a: RefereeAnswer, b: RefereeAnswer)
    ensures a.affirmativeMatch == b.affirmativeMatch ==>
      ExtractScores(a).affirmativeScore == ExtractScores(b).affirmativeScore
    ensures a.negativeMatch == b.negativeMatch ==>
      ExtractScores(a).negativeScore == ExtractScores(b).negativeScore
  {
  }

  /** An answer with no score labels reads as 70 to 70 and, without a declaration, as a tie. */
  lemma NoLabelsReadsAsDefaultTie(text: string, marker: string)
    requires forall i :: !OccursAt(text, marker + AffirmativeName, i) && !OccursAt(text, marker + NegativeName, i)
                         && !OccursAt(text, marker + TieName, i)
    ensures ExtractScores(RefereeAnswer(text, None, None)) == ScoreDetails(DefaultScore, DefaultScore)
    ensures ExtractWinner(text, marker, ExtractScores(RefereeAnswer(text, None, None))) == Tie
  {
  }

  /** A parsed 130 is off the scale and is replaced by the default, the other side unaffected. */
  lemma OutOfRangeReplaced(text: string, other: real)
    requires 0.0 <= other <= 100.0
    ensures ExtractScores(RefereeAnswer(text, Some(130.0), Some(other))) == ScoreDetails(DefaultScore, other)
  {
  }
}
