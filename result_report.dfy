/**
 * The result page's report (`exportToMarkdown`) as a sequence of sections, and the
 * winner label it prints (`getWinnerName`).
 */
module ResultReport {
  import opened DebateTypes
  import opened MessageLog
  import opened Calibration
  import opened DebateEngine
  import opened TextSearch
  import opened ScoreExtraction

  /** The label shown when there is no verdict. */
  const UndecidedName: string := "未决定"

  /**
   * The label shown for a winner: each verdict is named by the decision word the referees
   * declare it with, and `None` (no verdict) reads as undecided.
   */
  function GetWinnerName(winner: Option<Winner>): (name: string)
    ensures name == AffirmativeName <==> winner == Some(AffirmativeWin)
    ensures name == NegativeName <==> winner == Some(NegativeWin)
    ensures name == TieName <==> winner == Some(Tie)
    ensures name == UndecidedName <==> winner.None?
  {
    match winner
    case Some(AffirmativeWin) => AffirmativeName
    case Some(NegativeWin) => NegativeName
    case Some(Tie) => TieName
    case None => UndecidedName
  }

  /**
   * A verdict's label, written after a referee's verdict marker, reads back as that verdict
   * whatever the scores say.
   */
  lemma {:induction false} LabelReadsBack(marker: string, w: Winner, s: ScoreDetails)
    ensures ExtractWinner(marker + GetWinnerName(Some(w)), marker, s) == w
  {
    var text := marker + GetWinnerName(Some(w));
    ContainsSameLength(text, marker + AffirmativeName);
    ContainsSameLength(text, marker + NegativeName);
    ContainsSameLength(text, marker + TieName);
    // The three decision words differ in their first character.
    assert (marker + AffirmativeName)[|marker|] == AffirmativeName[0];
    assert (marker + NegativeName)[|marker|] == NegativeName[0];
    assert (marker + TieName)[|marker|] == TieName[0];
  }

  /** Different verdicts never share a label. */
  lemma {:induction false} WinnerNamesDistinct(a: Option<Winner>, b: Option<Winner>)
    ensures GetWinnerName(a) == GetWinnerName(b) ==> a == b
  {
  }

  /** One section of the report, in the order the builder writes them. */
  datatype Block =
    | Title                                        // # AI自动辩论记录
    | TopicSection(topic: string)                  // ## 辩题
    | ParameterSection(config: DebateConfig)       // ## 辩论参数
    | ProcessHeading                               // ## 辩论过程
    | RoundHeading(round: nat)                     // ### 第r回合
    | AffirmativeSpeech(content: string)           // #### 正方发言
    | NegativeSpeech(content: string)              // #### 反方发言
    | JudgingHeading                               // ## 裁判评判
    | MainRefereeReport(content: string)           // ### 主裁判评判
    | AssistantRefereeReport(content: string)      // ### 副裁判评判
    | ResultHeading                                // ## 最终结果
    | MainScoreLine(scores: ScoreDetails)          // - 主裁判评分
    | AssistantScoreLine(scores: ScoreDetails)     // - 副裁判评分
    | AffirmativeTotalLine(total: real)            // - 正方总分
    | NegativeTotalLine(total: real)               // - 反方总分
    | DifferenceLine(difference: real)             // - 分数差异
    | WinnerLine(name: string)                     // - 获胜方
    | Footer                                       // the rule and the generation time

  /** The title, topic, parameters and the heading of the debate itself. */
  function Preamble(config: DebateConfig): seq<Block> {
    [Title, TopicSection(config.topic), ParameterSection(config), ProcessHeading]
  }

  /** Round `r`: its heading, then the r-th affirmative and the r-th negative speech where they exist. */
  function RoundBlocks(affirmative: seq<Message>, negative: seq<Message>, r: nat): seq<Block>
    requires r >= 1
  {
    [RoundHeading(r)]
    + (if r - 1 < |affirmative| then [AffirmativeSpeech(affirmative[r - 1].content)] else [])
    + (if r - 1 < |negative| then [NegativeSpeech(negative[r - 1].content)] else [])
  }

  /** Rounds 1 to `n`, in order. */
  function Rounds(affirmative: seq<Message>, negative: seq<Message>, n: nat): seq<Block> {
    if n == 0 then [] else Rounds(affirmative, negative, n - 1) + RoundBlocks(affirmative, negative, n)
  }

  /** A referee's first report, where that referee spoke at all. */
  function FirstReport(messages: seq<Message>, role: Role): (r: seq<Block>)
    ensures |r| <= 1 && (r == [] <==> |messages| == 0)
    ensures forall b :: b in r ==> b.MainRefereeReport? || b.AssistantRefereeReport?
  {
    if |messages| == 0 then []
    else if role == MainReferee then [MainRefereeReport(messages[0].content)]
    else [AssistantRefereeReport(messages[0].content)]
  }

  /** The judging section: its heading and the first report of each referee, where one exists. */
  function JudgingSection(s: DebateState): seq<Block> {
    [JudgingHeading]
    + FirstReport(Filter(s.messages, MainReferee), MainReferee)
    + FirstReport(Filter(s.messages, AssistantReferee), AssistantReferee)
  }

  /** A referee's score line, where that referee's scores exist. */
  function ScoreLine(scores: Option<ScoreDetails>, role: Role): (r: seq<Block>)
    ensures |r| <= 1 && (r == [] <==> scores.None?)
    ensures forall b :: b in r ==> b.MainScoreLine? || b.AssistantScoreLine?
  {
    match scores
    case None => []
    case Some(d) => if role == MainReferee then [MainScoreLine(d)] else [AssistantScoreLine(d)]
  }

  /** The totals and their distance, where a calibration exists. */
  function TotalLines(calibration: Option<ScoreCalibration>): (r: seq<Block>)
    ensures r == [] <==> calibration.None?
    ensures forall b :: b in r ==> b.AffirmativeTotalLine? || b.NegativeTotalLine? || b.DifferenceLine?
  {
    match calibration
    case None => []
    case Some(c) => [AffirmativeTotalLine(c.totalScores.affirmativeScore),
                     NegativeTotalLine(c.totalScores.negativeScore),
                     DifferenceLine(c.scoreDifference)]
  }

  /** The score lines that have data: each referee's pair, then the totals and their distance. */
  function ScoreLines(s: DebateState): seq<Block> {
    ScoreLine(s.mainRefereeScores, MainReferee)
    + ScoreLine(s.assistantRefereeScores, AssistantReferee)
    + TotalLines(s.scoreCalibration)
  }

  /** The final-result section: its heading, the score lines, the one winner line and the footer. */
  function ResultSection(s: DebateState): seq<Block> {
    [ResultHeading] + ScoreLines(s) + [WinnerLine(GetWinnerName(s.winner)), Footer]
  }

  /** Everything before the judging section. */
  function DebateSection(s: DebateState, config: DebateConfig): seq<Block> {
    Preamble(config) + Rounds(Filter(s.messages, Affirmative), Filter(s.messages, Negative), config.rounds)
  }

  /** The whole report for a finished session. */
  function Report(s: DebateState, config: DebateConfig): seq<Block> {
    DebateSection(s, config) + (JudgingSection(s) + ResultSection(s))
  }

  /** `exportToMarkdown`, up to the download: the report is written section by section. */
  method ExportToMarkdown(finalState: DebateState, config: DebateConfig) returns (markdown: seq<Block>)
    ensures markdown == Report(finalState, config)
  {
    var affirmativeMessages := Filter(finalState.messages, Affirmative);
    var negativeMessages := Filter(finalState.messages, Negative);

    markdown := [Title];
    markdown := markdown + [TopicSection(config.topic)];
    markdown := markdown + [ParameterSection(config)];
    markdown := markdown + [ProcessHeading];

    markdown := AppendRounds(markdown, affirmativeMessages, negativeMessages, config.rounds);
    ghost var debate := markdown;
    var judging := JudgingPart(finalState);
    var result := ResultPart(finalState);
    markdown := markdown + judging + result;
    assert markdown == debate + (judging + result);
  }

  /** The export's loop over rounds 1 to `rounds`: each round's heading and its two speeches. */
  method AppendRounds(prefix: seq<Block>, affirmative: seq<Message>, negative: seq<Message>, rounds: nat)
    returns (markdown: seq<Block>)
    ensures markdown == prefix + Rounds(affirmative, negative, rounds)
  {
    markdown := prefix;
    var round := 1;
    while round <= rounds
      invariant 1 <= round <= rounds + 1
      invariant markdown == prefix + Rounds(affirmative, negative, round - 1)
    {
      ghost var before := markdown;
      markdown := markdown + [RoundHeading(round)];
      ghost var headed := markdown;
      if round - 1 < |affirmative| {
        markdown := markdown + [AffirmativeSpeech(affirmative[round - 1].content)];
      }
      ghost var affirmed := markdown;
      if round - 1 < |negative| {
        markdown := markdown + [NegativeSpeech(negative[round - 1].content)];
      }
      RoundAppended(before, headed, affirmed, markdown, affirmative, negative, round);
      assert markdown == prefix + (Rounds(affirmative, negative, round - 1) + RoundBlocks(affirmative, negative, round));
      round := round + 1;
    }
  }

  /** Appending a round's heading and then its speeches, where they exist, appends its blocks. */
  lemma {:induction false} RoundAppended(before: seq<Block>, headed: seq<Block>, affirmed: seq<Block>, after: seq<Block>,
                                         affirmative: seq<Message>, negative: seq<Message>, r: nat)
    requires r >= 1
    requires headed == before + [RoundHeading(r)]
    requires affirmed == headed + (if r - 1 < |affirmative| then [AffirmativeSpeech(affirmative[r - 1].content)] else [])
    requires after == affirmed + (if r - 1 < |negative| then [NegativeSpeech(negative[r - 1].content)] else [])
    ensures after == before + RoundBlocks(affirmative, negative, r)
  {
  }

  /** The judging section as the export writes it. */
  method JudgingPart(finalState: DebateState) returns (markdown: seq<Block>)
    ensures markdown == JudgingSection(finalState)
  {
    var mainRefereeMessages := Filter(finalState.messages, MainReferee);
    var assistantRefereeMessages := Filter(finalState.messages, AssistantReferee);
    markdown := [JudgingHeading];
    if |mainRefereeMessages| > 0 {
      markdown := markdown + [MainRefereeReport(mainRefereeMessages[0].content)];
    }
    if |assistantRefereeMessages| > 0 {
      markdown := markdown + [AssistantRefereeReport(assistantRefereeMessages[0].content)];
    }
  }

  /** The final-result section as the export writes it. */
  method ResultPart(finalState: DebateState) returns (markdown: seq<Block>)
    ensures markdown == ResultSection(finalState)
  {
    markdown := [ResultHeading];
    if finalState.mainRefereeScores.Some? {
      markdown := markdown + [MainScoreLine(finalState.mainRefereeScores.value)];
    }
    if finalState.assistantRefereeScores.Some? {
      markdown := markdown + [AssistantScoreLine(finalState.assistantRefereeScores.value)];
    }
    if finalState.scoreCalibration.Some? {
      var c := finalState.scoreCalibration.value;
      markdown := markdown + [AffirmativeTotalLine(c.totalScores.affirmativeScore)];
      markdown := markdown + [NegativeTotalLine(c.totalScores.negativeScore)];
      markdown := markdown + [DifferenceLine(c.scoreDifference)];
    }
    markdown := markdown + [WinnerLine(GetWinnerName(finalState.winner))];
    markdown := markdown + [Footer];
  }

  /** The speech a single block carries for `side`, if any. */
  function SpeechOf(b: Block, side: Role): seq<string> {
    if (b.AffirmativeSpeech? && side == Affirmative) || (b.NegativeSpeech? && side == Negative) then [b.content]
    else []
  }

  /** The contents of one side's speeches, in report order. */
  function Speeches(bs: seq<Block>, side: Role): seq<string> {
    if bs == [] then [] else SpeechOf(bs[0], side) + Speeches(bs[1..], side)
  }

  lemma {:induction false} SpeechesConcat(a: seq<Block>, b: seq<Block>, side: Role)
    ensures Speeches(a + b, side) == Speeches(a, side) + Speeches(b, side)
  {
    if a == [] {
      assert a + b == b;
    } else {
      assert (a + b)[1..] == a[1..] + b;
      SpeechesConcat(a[1..], b, side);
    }
  }

  /** The contents of a run of messages, in order. */
  function Contents(ms: seq<Message>): (r: seq<string>)
    ensures |r| == |ms|
  {
    seq(|ms|, i requires 0 <= i < |ms| => ms[i].content)
  }

  /** Taking one more message adds its content at the end. */
  lemma {:induction false} ContentsGrow(ms: seq<Message>, n: nat)
    requires 1 <= n <= |ms|
    ensures Contents(ms[..n]) == Contents(ms[..n - 1]) + [ms[n - 1].content]
  {
  }

  /** The messages a debater side contributes to the rounds. */
  function SideMessages(affirmative: seq<Message>, negative: seq<Message>, side: Role): seq<Message> {
    if side == Affirmative then affirmative else negative
  }

  function Min(a: nat, b: nat): nat {
    if a < b then a else b
  }

  /** Round `r` carries exactly the r-th speech of each side, where there is one. */
  lemma {:induction false} RoundSpeech(affirmative: seq<Message>, negative: seq<Message>, r: nat, side: Role)
    requires r >= 1 && (side == Affirmative || side == Negative)
    ensures var ms := SideMessages(affirmative, negative, side);
      Speeches(RoundBlocks(affirmative, negative, r), side) == (if r - 1 < |ms| then [ms[r - 1].content] else [])
  {
    var aff := if r - 1 < |affirmative| then [AffirmativeSpeech(affirmative[r - 1].content)] else [];
    var neg := if r - 1 < |negative| then [NegativeSpeech(negative[r - 1].content)] else [];
    SpeechesConcat([RoundHeading(r)] + aff, neg, side);
    SpeechesConcat([RoundHeading(r)], aff, side);
  }

  /**
   * Round pairing: over rounds 1 to `n`, a side's speeches are that side's first `n`
   * messages, in log order; messages past round `n` do not appear.
   */
  lemma {:induction false} RoundsCarrySpeeches(affirmative: seq<Message>, negative: seq<Message>, n: nat, side: Role)
    requires side == Affirmative || side == Negative
    ensures var ms := SideMessages(affirmative, negative, side);
      Speeches(Rounds(affirmative, negative, n), side) == Contents(ms[..Min(|ms|, n)])
  {
    var ms := SideMessages(affirmative, negative, side);
    if n > 0 {
      var earlier := Rounds(affirmative, negative, n - 1);
      var last := RoundBlocks(affirmative, negative, n);
      RoundsCarrySpeeches(affirmative, negative, n - 1, side);
      assert Speeches(earlier, side) == Contents(ms[..Min(|ms|, n - 1)]);
      SpeechesConcat(earlier, last, side);
      RoundSpeech(affirmative, negative, n, side);
      if n - 1 < |ms| {
        ContentsGrow(ms, n);
      } else {
        assert Min(|ms|, n) == Min(|ms|, n - 1);
      }
    }
  }

  /** A run of blocks without speech blocks carries no speeches. */
  lemma {:induction false} NoSpeeches(bs: seq<Block>, side: Role)
    requires forall b :: b in bs ==> !b.AffirmativeSpeech? && !b.NegativeSpeech?
    ensures Speeches(bs, side) == []
  {
    if bs != [] {
      assert bs[0] in bs;
      assert forall b :: b in bs[1..] ==> b in bs;
      NoSpeeches(bs[1..], side);
    }
  }

  /** The preamble carries no speech. */
  lemma {:induction false} PreambleCarriesNoSpeech(config: DebateConfig, side: Role)
    ensures Speeches(Preamble(config), side) == []
  {
    NoSpeeches(Preamble(config), side);
  }

  /** The judging and result sections carry no speech. */
  lemma {:induction false} VerdictsCarryNoSpeech(s: DebateState, side: Role)
    ensures Speeches(JudgingSection(s) + ResultSection(s), side) == []
  {
    var main := FirstReport(Filter(s.messages, MainReferee), MainReferee);
    var assistant := FirstReport(Filter(s.messages, AssistantReferee), AssistantReferee);
    var mainScore := ScoreLine(s.mainRefereeScores, MainReferee);
    var assistantScore := ScoreLine(s.assistantRefereeScores, AssistantReferee);
    var totals := TotalLines(s.scoreCalibration);
    var tail := [WinnerLine(GetWinnerName(s.winner)), Footer];
    NoSpeeches(main, side);
    NoSpeeches(assistant, side);
    NoSpeeches(mainScore, side);
    NoSpeeches(assistantScore, side);
    NoSpeeches(totals, side);
    NoSpeeches([JudgingHeading], side);
    NoSpeeches([ResultHeading], side);
    NoSpeeches(tail, side);
    SpeechesConcat([JudgingHeading], main, side);
    SpeechesConcat([JudgingHeading] + main, assistant, side);
    SpeechesConcat(mainScore, assistantScore, side);
    SpeechesConcat(mainScore + assistantScore, totals, side);
    SpeechesConcat([ResultHeading], ScoreLines(s), side);
    SpeechesConcat([ResultHeading] + ScoreLines(s), tail, side);
    SpeechesConcat(JudgingSection(s), ResultSection(s), side);
  }

  /**
   * The report carries the first `config.rounds` messages of each debater side, in log
   * order, and no other speech.
   */
  lemma {:induction false} ReportSpeeches(s: DebateState, config: DebateConfig, side: Role)
    requires side == Affirmative || side == Negative
    ensures var ms := Filter(s.messages, side);
      Speeches(Report(s, config), side) == Contents(ms[..Min(|ms|, config.rounds)])
  {
    var affirmative := Filter(s.messages, Affirmative);
    var negative := Filter(s.messages, Negative);
    var preamble := Preamble(config);
    var rounds := Rounds(affirmative, negative, config.rounds);
    var verdicts := JudgingSection(s) + ResultSection(s);
    assert Report(s, config) == preamble + rounds + verdicts;
    SpeechesConcat(preamble + rounds, verdicts, side);
    SpeechesConcat(preamble, rounds, side);
    PreambleCarriesNoSpeech(config, side);
    VerdictsCarryNoSpeech(s, side);
    RoundsCarrySpeeches(affirmative, negative, config.rounds, side);
    assert SideMessages(affirmative, negative, side) == Filter(s.messages, side);
  }

  /** The rounds hold only round headings and speeches. */
  lemma {:induction false} RoundsHoldOnlySpeeches(affirmative: seq<Message>, negative: seq<Message>, n: nat)
    ensures forall b :: b in Rounds(affirmative, negative, n) ==>
      b.RoundHeading? || b.AffirmativeSpeech? || b.NegativeSpeech?
  {
    if n > 0 {
      RoundsHoldOnlySpeeches(affirmative, negative, n - 1);
    }
  }

  /** No block before the result section is a winner line. */
  lemma {:induction false} DebateAndJudgingHoldNoWinnerLine(s: DebateState, config: DebateConfig)
    ensures forall b :: b in DebateSection(s, config) + JudgingSection(s) ==> !b.WinnerLine?
  {
    RoundsHoldOnlySpeeches(Filter(s.messages, Affirmative), Filter(s.messages, Negative), config.rounds);
  }

  /**
   * The report opens with the title and the topic and closes with the winner line naming
   * the session's winner and the footer; no earlier block is a winner line.
   */
  lemma {:induction false} ReportLayout(s: DebateState, config: DebateConfig)
    ensures var r := Report(s, config);
      && |r| >= 4
      && r[0] == Title && r[1] == TopicSection(config.topic)
      && r[|r| - 2] == WinnerLine(GetWinnerName(s.winner)) && r[|r| - 1] == Footer
      && forall b :: b in r[..|r| - 2] ==> !b.WinnerLine?
  {
    var r := Report(s, config);
    var front := DebateSection(s, config) + JudgingSection(s);
    var scores := [ResultHeading] + ScoreLines(s);
    assert r == front + scores + [WinnerLine(GetWinnerName(s.winner)), Footer];
    assert r[..|r| - 2] == front + scores;
    DebateAndJudgingHoldNoWinnerLine(s, config);
    assert forall b :: b in scores ==> !b.WinnerLine?;
  }

  /**
   * The judging section opens with its heading and holds one report per referee that spoke,
   * that referee's first, the main referee's before the assistant's.
   */
  lemma {:induction false} JudgingReports(s: DebateState)
    ensures var main := Filter(s.messages, MainReferee);
      var assistant := Filter(s.messages, AssistantReferee);
      var judging := JudgingSection(s);
      && judging[0] == JudgingHeading
      && |judging| == 1 + (if |main| > 0 then 1 else 0) + (if |assistant| > 0 then 1 else 0)
      && (|main| > 0 ==> judging[1] == MainRefereeReport(main[0].content))
      && (|assistant| > 0 ==> judging[|judging| - 1] == AssistantRefereeReport(assistant[0].content))
      && (|main| > 0 ==> MainRefereeReport(main[0].content) in judging)
      && (|main| == 0 ==> forall b :: b in judging ==> !b.MainRefereeReport?)
      && (|assistant| > 0 ==> AssistantRefereeReport(assistant[0].content) in judging)
      && (|assistant| == 0 ==> forall b :: b in judging ==> !b.AssistantRefereeReport?)
  {
    var main := Filter(s.messages, MainReferee);
    var assistant := Filter(s.messages, AssistantReferee);
    assert JudgingSection(s) == [JudgingHeading] + FirstReport(main, MainReferee) + FirstReport(assistant, AssistantReferee);
  }

  /**
   * Each score line appears exactly when that referee's scores exist, the totals and
   * their distance exactly when a calibration exists.
   */
  lemma {:induction false} ScoreLinesPresent(s: DebateState)
    ensures s.mainRefereeScores.Some? ==> MainScoreLine(s.mainRefereeScores.value) in ResultSection(s)
    ensures s.mainRefereeScores.None? ==> forall b :: b in ResultSection(s) ==> !b.MainScoreLine?
    ensures s.assistantRefereeScores.Some? ==> AssistantScoreLine(s.assistantRefereeScores.value) in ResultSection(s)
    ensures s.assistantRefereeScores.None? ==> forall b :: b in ResultSection(s) ==> !b.AssistantScoreLine?
    ensures s.scoreCalibration.Some? ==>
      var c := s.scoreCalibration.value;
      && AffirmativeTotalLine(c.totalScores.affirmativeScore) in ResultSection(s)
      && NegativeTotalLine(c.totalScores.negativeScore) in ResultSection(s)
      && DifferenceLine(c.scoreDifference) in ResultSection(s)
    ensures s.scoreCalibration.None? ==>
      forall b :: b in ResultSection(s) ==> !b.AffirmativeTotalLine? && !b.NegativeTotalLine? && !b.DifferenceLine?
  {
    var main := ScoreLine(s.mainRefereeScores, MainReferee);
    var assistant := ScoreLine(s.assistantRefereeScores, AssistantReferee);
    var totals := TotalLines(s.scoreCalibration);
    assert ResultSection(s) == [ResultHeading] + main + assistant + totals + [WinnerLine(GetWinnerName(s.winner)), Footer];
  }
}
