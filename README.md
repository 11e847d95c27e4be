# AI debate engine — a verified model

This project models the core of a two-agent debate application. An affirmative and a negative
agent argue a topic over a configured number of rounds. When the rounds are over, a main
referee and an assistant referee each score both sides on a 0-100 scale and name a winner.
Finalisation then adds the two referees' scores per side and publishes the verdict of the
totals. The result page exports the finished debate as a Markdown report.

The model has six parts:

- `types.dfy` (`DebateTypes`) holds the shared value types: roles, messages, score pairs,
  the configuration and the outcome of an agent call.
- `message_log.dfy` (`MessageLog`) holds the message log. It is append-only, its entries are
  edited in place by id, and it offers per-role views.
- `text_search.dfy` (`TextSearch`) provides the substring test that finds the referees'
  verdict markers.
- `score_extraction.dfy` (`ScoreExtraction`) reads a referee's answer. Each side gets a
  validated score with a default of 70. The verdict is the one the text declares, if any,
  and otherwise the comparison of the scores.
- `calibration.dfy` (`Calibration`) computes `calculateScoreCalibration` (totals and their
  distance) and the finalisation verdict. `pair_blend.dfy` (`PairBlend`) models the
  stand-alone pair-blend primitive `testScoreCalibration` and its table of listed cases.
- `debate_engine.dfy` (`DebateEngine`) models the `useDebateEngine` hook as the class
  `DebateSession`. The class owns one `DebateState` value, as the hook does.

  Each agent call is split at its `await`. The issuing method runs the synchronous part:
  the guard, `processingAction`, and appending the pending message. It records the
  suspended continuation in the field `awaiting`. A `Resolve…` method then applies the
  outcome, which the caller supplies as `Answered`, `ApiError` or `Failed`.

  The session invariant `Valid` holds across the debate-flow operations: the constructor,
  `TogglePause`, `ResetDebate`, `StartDebate`, `RunNextStep`, `RunDebate`, the `Resolve…`
  continuations and `Finalise`. `addMessage` and `updateMessage`
  (use-debate-engine.tsx:115-133) are defined in the hook but neither called nor returned by
  it (use-debate-engine.tsx:745-751). The model keeps them as stand-alone operations that
  neither need nor keep `Valid`: a main referee's message added mid-debate breaks the referee
  order. `Valid` says:
  - ids are fresh and increasing;
  - `processingAction` is set exactly while a call is in flight, and only that call's message
    is loading;
  - debater turns alternate, affirmative first, one negative turn per round;
  - the referees run once each, main first, only after the last round;
  - scores are on the 0-100 scale, and a calibration agrees with the scores.

  `TwoRoundDebate` drives a whole two-round debate through the class, including a pause taken
  while a call is in flight.
- `result_report.dfy` (`ResultReport`) covers `getWinnerName` and the assembly of
  `exportToMarkdown`. The report is modelled as a sequence of sections (`Block`) rather than
  as characters. It is specified by `Report`, and lemmas state what the report contains.

All scores are mathematical reals.

## Model

| member | source | states |
|---|---|---|
| DebateTypes.TurnRole | src/hooks/use-debate-engine.tsx:623-640 | the affirmative side speaks exactly on an affirmative turn, and only debaters take turns |
| MessageLog.FilterMembers | src/pages/result.tsx:72-75 | a role's view holds only log messages of that role, and every log message of that role appears in it |
| MessageLog.FilterAppend | src/hooks/use-debate-engine.tsx:115-123 | appending a message extends exactly its own role's view, by that message, in order |
| MessageLog.UpdateById | src/hooks/use-debate-engine.tsx:126-133 | updating by id keeps length, order, ids and roles; the message with that id gets the new content and loading flag; every other message is untouched |
| MessageLog.CountUpdate | src/hooks/use-debate-engine.tsx:126-133 | an in-place update never changes how many messages a role has |
| TextSearch.ContainsIffOccurs | src/hooks/use-debate-engine.tsx:405-407 | the substring test succeeds exactly when the pattern occurs at some position of the text |
| ScoreExtraction.ValidatedScore | src/hooks/use-debate-engine.tsx:381-403 | a side's score is always within 0-100; a found value within 0-100 is kept; a missing or out-of-range value becomes 70 |
| ScoreExtraction.ExtractScores | src/hooks/use-debate-engine.tsx:381-403 | the pair is on the 0-100 scale and each side is validated from its own match only |
| ScoreExtraction.ScoreWinner | src/hooks/use-debate-engine.tsx:408-411 | the affirmative side wins iff its score is higher, the negative iff its score is higher, a tie iff the scores are equal |
| ScoreExtraction.ExtractWinner | src/hooks/use-debate-engine.tsx:405-411 | a declaration after the marker beats the scores, in the order affirmative, then negative, then tie: an affirmative one always wins, a negative one wins unless an affirmative one is present, a tie one decides unless either side's is present; any verdict is backed by its declaration or by the scores; with no declaration the verdict is the score comparison |
| ScoreExtraction.SidesIndependent | src/hooks/use-debate-engine.tsx:388-403 | each side's score depends only on that side's match |
| ScoreExtraction.NoLabelsReadsAsDefaultTie | src/hooks/use-debate-engine.tsx:381-411 | an answer with no score labels and no declaration reads as 70 to 70, a tie |
| ScoreExtraction.OutOfRangeReplaced | src/hooks/use-debate-engine.tsx:388-394 | a parsed 130 is replaced by 70 and the other side is unaffected |
| Calibration.CalculateScoreCalibration | src/hooks/use-debate-engine.tsx:63-93 | no calibration iff either referee's scores are missing; otherwise both inputs are kept, each total is the sum of the two referees' scores for that side, and the difference is the non-negative distance between the totals |
| Calibration.FinalWinner | src/hooks/use-debate-engine.tsx:703-713 | no verdict iff no calibration; otherwise the affirmative wins iff its total is higher, the negative iff its total is higher, a tie iff the totals are equal |
| Calibration.TotalsInRange | src/hooks/use-debate-engine.tsx:72-78 | with both referees on the 0-100 scale, each total and the difference lie within 0-200 |
| Calibration.RefereeOrderIrrelevant | src/hooks/use-debate-engine.tsx:63-93 | swapping the referees keeps the totals, the difference and the final verdict |
| Calibration.UnanimousVerdictStands | src/hooks/use-debate-engine.tsx:703-713 | when both referees' scores favour the same side (or both tie), that is the final verdict |
| Calibration.TieIffNoDifference | src/hooks/use-debate-engine.tsx:703-713 | the final verdict is a tie exactly when the difference is zero |
| Calibration.MirroredSides | src/hooks/use-debate-engine.tsx:63-93 | swapping the sides in both score pairs keeps the difference and swaps the verdict |
| PairBlend.TestScoreCalibration | score-calibration-test.ts:7-42 | no result iff either score is missing; the difference is the distance between the scores; the tier is high iff the distance is at most 0.5, medium iff it is in (0.5, 1.5], low iff above 1.5; the score is the mean of the two (high confidence) or the 60/40 blend (otherwise), clamped to 0-10; review is flagged exactly for low confidence |
| PairBlend.DifferenceSymmetric | score-calibration-test.ts:12-31 | the difference, tier and review flag do not depend on which judge is main |
| PairBlend.BlendWithinScores | score-calibration-test.ts:18-34 | for inputs within 0-10 the clamp never applies; the result is the mean at high confidence and the 60/40 blend otherwise, and it lies between the two scores |
| PairBlend.ListedCases | score-calibration-test.ts:45-51 | the five listed inputs give the expected tiers, blended scores and review flags (8.5/8.2 high 8.35; 7.8/6.5 medium 7.28; 9.0/6.0 low 7.8 with review; 8.0/8.0 high 8.0; 7.5/6.0 medium 6.9 at the boundary) |
| DebateEngine.RefereeScores | src/hooks/use-debate-engine.tsx:414-423 | a referee's answer replaces its score pair by the one read from that answer, each side validated from its own match onto the 0-100 scale; a failure leaves the pair as it was |
| DebateEngine.RefereeVerdict | src/hooks/use-debate-engine.tsx:416-423 | a referee's answer yields the verdict extracted from that answer's text and scores after the referee's marker (`winner \|\| prev.winner` never falls back); a failure keeps the previous one |
| DebateEngine.DebateSession.constructor | src/hooks/use-debate-engine.tsx:98-112 | a new session holds the initial state: not started, no messages, no scores, not paused, idle; the invariant holds |
| DebateEngine.DebateSession.AddMessage | src/hooks/use-debate-engine.tsx:115-123 | appends exactly one message under a fresh id, nothing else changes, and ids stay increasing |
| DebateEngine.DebateSession.UpdateMessage | src/hooks/use-debate-engine.tsx:126-133 | the log becomes its update by id, nothing else changes, and every role keeps its count |
| DebateEngine.DebateSession.TogglePause | src/hooks/use-debate-engine.tsx:136-138 | flips the pause flag and nothing else, even while a call is in flight, keeping the invariant |
| DebateEngine.DebateSession.ResetDebate | src/hooks/use-debate-engine.tsx:141-155 | the state becomes the initial state for the configured rounds |
| DebateEngine.DebateSession.StartDebate | src/hooks/use-debate-engine.tsx:609-612 | the state becomes the initial state with round 1 opened |
| DebateEngine.DebateSession.RunNextStep | src/hooks/use-debate-engine.tsx:615-622 | does nothing while processing, finished or paused; otherwise appends a pending message for the side whose turn it is, sets processing and suspends on that call |
| DebateEngine.DebateSession.ResolveDebaterTurn | src/hooks/use-debate-engine.tsx:255-281 | the pending message takes the answer or the failure text; an affirmative turn hands over within the round, a negative turn hands back and opens the next round; processing ends and the invariant holds |
| DebateEngine.DebateSession.RunDebate | src/hooks/use-debate-engine.tsx:653-689 | nothing happens unless started, idle, unpaused and unfinished; past the last round the main referee's call is issued, otherwise the next debater step; refereeing starts only after each side has spoken once per round since the opening round |
| DebateEngine.DebateSession.BeginRefereeing | src/hooks/use-debate-engine.tsx:656-660 | appends the main referee's pending message and suspends on its call, with both sides' turn counts equal to the rounds played |
| DebateEngine.DebateSession.ResolveMainReferee | src/hooks/use-debate-engine.tsx:412-445 | the main referee's message takes the answer or the failure text; an answer sets the score pair and the winner; then the assistant referee's call is issued whatever the outcome |
| DebateEngine.DebateSession.ResolveAssistantReferee | src/hooks/use-debate-engine.tsx:573-606 | the same for the assistant referee; then the debate is finished and idle |
| DebateEngine.DebateSession.Finalise | src/hooks/use-debate-engine.tsx:692-719 | a finished session gets the calibration of its two score pairs and the verdict of the totals; an unfinished one is unchanged; finalising twice changes nothing |
| DebateEngine.TwoRoundDebate | src/hooks/use-debate-engine.tsx:609-719 | a started two-round debate, driven by the effect and paused once mid-call, ends finalised with two speeches per side and one report per referee; a winner is published exactly when both referees answered, and it is then the verdict of the totals of the two score pairs read from their answers |
| DebateEngine.PlayTurn | src/hooks/use-debate-engine.tsx:615-650 | one effect-driven debater turn keeps the invariant and the schedule, hands the turn over, and advances the round after the negative side |
| DebateEngine.PausedTurn | src/hooks/use-debate-engine.tsx:136-138 | a call paused in flight still lands: the log becomes the old log plus the pending message, updated by its id with the outcome's text; the turn is handed over. That the effect does nothing while paused is stated by `RunDebate`'s contract (an ineligible session is left unchanged) |
| ResultReport.GetWinnerName | src/pages/result.tsx:42-53 | an affirmative win is labelled 正方, a negative win 反方, a tie 平局, each exactly for that verdict; the label is 未决定 exactly when there is no winner |
| ResultReport.LabelReadsBack | src/pages/result.tsx:42-53 | a verdict's label written after a referee's verdict marker is read back by the referees' verdict extraction as that same verdict, whatever the scores |
| ResultReport.WinnerNamesDistinct | src/pages/result.tsx:42-53 | different verdicts never share a label |
| ResultReport.ExportToMarkdown | src/pages/result.tsx:70-141 | the assembled report is exactly `Report` of the final state and configuration |
| ResultReport.AppendRounds | src/pages/result.tsx:89-104 | the round loop appends exactly the blocks of rounds 1 to `rounds`, in order |
| ResultReport.RoundsCarrySpeeches | src/pages/result.tsx:90-104 | over rounds 1 to n, a side's speeches are that side's first n messages, in log order |
| ResultReport.ReportSpeeches | src/pages/result.tsx:70-141 | the whole report carries the first `rounds` messages of each side, in log order, and no other speech |
| ResultReport.ReportLayout | src/pages/result.tsx:77-141 | the report opens with the title and the topic and ends with the winner line for the session's winner and then the footer; no earlier block is a winner line |
| ResultReport.JudgingReports | src/pages/result.tsx:106-116 | the section opens with its heading and then holds exactly one report per referee that spoke, that referee's first, the main referee's before the assistant's; a referee that did not speak has no report |
| ResultReport.ScoreLinesPresent | src/pages/result.tsx:118-135 | each referee's score line appears exactly when its scores exist; the affirmative total, the negative total and the difference lines appear, with the calibration's values, exactly when a calibration exists |

## Left out

- The prompts, the HTTP calls to the model providers and their response format. Each agent
  call becomes a caller-supplied outcome (`AgentOutcome`). `ApiError` carries the provider
  name and message the typed error would carry.
- The score regular expression and `parseFloat`. `RefereeAnswer` carries the number found
  after each side's score label, if any. The verdict markers are searched for literally,
  as the source does.
- Random message ids (`generateId`). The model draws fresh ids from a counter, which makes
  them distinct and increasing; the random ids are only distinct with high probability.
- React's scheduling: setState batching, effect re-runs and stale closures. `RunDebate` is
  the effect body; the caller decides when it runs.
- `setTimeout` and navigation to the result page after finalisation; console logging.
- The report's text rendering: number formatting (`toFixed(2)`), the timestamp, and the
  Blob/anchor download. Each report section is one `Block` value.
- IEEE-754 floating point. Scores are reals, so the blend and totals are exact. For example,
  7.8 − 6.5 is 1.3 here, not 1.2999999999999998; every listed case falls in the same tier
  either way.
- `getRoleName` and `getWinnerColor` on the result page, which are presentation only.
- DebateEngine.DebateSession.ResetDebate and StartDebate require that no call is in flight.
  In the source, a continuation still pending after a reset would later write into the fresh
  session. The model does not cover that interleaving.
- DebateEngine.DebateSession.RunNextStep is modelled for callers inside the schedule. A manual
  step before starting or past the last round is accepted and keeps `Valid`, and the turn
  counts stay tied to the rounds through the recorded opening round. `OnSchedule` is promised
  only for steps within the rounds.
- Exceptions thrown by `setState` itself in the outer `catch` blocks of `runNextStep` and
  `runDebate`. The inner `catch` blocks of every agent call are modelled as the `ApiError`
  and `Failed` outcomes.
- The finished state: one might expect the published winner to always be one of the
  affirmative side, the negative side or a tie. The code leaves it null when a referee failed
  and no calibration exists (use-debate-engine.tsx:700-713). The model follows the code, and
  `TwoRoundDebate` states that a winner exists exactly when both referees answered.
