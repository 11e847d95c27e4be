/** Value types shared by the debate engine, the calibration code and the result report. */
module DebateTypes {

  /** A value that may be absent (the source's `T | null`). */
  datatype Option<+T> = None | Some(value: T)

  /** The four fixed agent identities: two debaters and two referees. */
  datatype Role = Affirmative | Negative | MainReferee | AssistantReferee

  /** A resolved verdict; `Option<Winner>` is the source's `winner` field, where `None` is `null`. */
  datatype Winner = AffirmativeWin | NegativeWin | Tie

  /** One entry of the debate log. `loading` marks a message whose agent call is still in flight. */
  datatype Message = Message(id: nat, role: Role, content: string, loading: bool)

  /** A referee's score pair on the 0-100 scale (the source's `ScoreDetails`). */
  datatype ScoreDetails = ScoreDetails(affirmativeScore: real, negativeScore: real)

  /** The settings of one debate; the engine reads `rounds`, the report reads all of them. */
  datatype DebateConfig = DebateConfig(
    topic: string,
    rounds: nat,
    temperature: real,
    topP: real,
    maxTokens: nat,
    thinking: bool)

  /**
   * What an agent call produced: the answer, a typed API failure carrying an optional
   * provider name and a message, or any other failure.
   */
  datatype AgentOutcome<T> = Answered(answer: T) | ApiError(provider: Option<string>, message: string) | Failed

  /** Both scores of a pair lie on the referees' 0-100 scale. */
  predicate InScale(s: ScoreDetails) {
    0.0 <= s.affirmativeScore <= 100.0 && 0.0 <= s.negativeScore <= 100.0
  }

  /** The side that speaks on a debater turn. */
  function TurnRole(isAffirmativeTurn: bool): (r: Role)
    ensures r == Affirmative <==> isAffirmativeTurn
    ensures r == Affirmative || r == Negative
  {
    if isAffirmativeTurn then Affirmative else Negative
  }
}
