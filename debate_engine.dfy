/**
 * The debate session engine (`useDebateEngine`): the turn scheduler, the two referee
 * calls, and finalisation, as a class that owns one `DebateState` value.
 *
 * Every agent call is split at its `await`. The method that issues the call runs the
 * synchronous part (guards, `processingAction`, the pending message) and records the
 * suspended continuation in `awaiting`; a `Resolve...` method runs the continuation with
 * the call's outcome, which the caller supplies.
 */
module DebateEngine {
  import opened DebateTypes
  import opened MessageLog
  import opened ScoreExtraction
  import opened Calibration

  /** The hook's state value, field for field. */
  datatype DebateState = DebateState(
    messages: seq<Message>,
    currentRound: nat,
    totalRounds: nat,
    isAffirmativeTurn: bool,
    isDebateFinished: bool,
    isPaused: bool,
    mainRefereeScores: Option<ScoreDetails>,
    assistantRefereeScores: Option<ScoreDetails>,
    scoreCalibration: Option<ScoreCalibration>,
    winner: Option<Winner>,
    processingAction: bool)

  /** The state the hook starts from and `resetDebate` returns to. */
  function InitialState(rounds: nat): DebateState {
    DebateState([], 0, rounds, true, false, false, None, None, None, None, false)
  }

  /** The guard of the `runDebate` effect: started, idle, not paused, not finished. */
  predicate Eligible(s: DebateState) {
    s.currentRound > 0 && !s.processingAction && !s.isPaused && !s.isDebateFinished
  }

  /** Which agent a suspended call is waiting for. */
  datatype Call = DebaterCall(side: Role) | MainRefereeCall | AssistantRefereeCall

  /** A suspended call and the id of the pending message it will complete. */
  datatype Awaiting = Awaiting(call: Call, messageId: nat)

  function CallRole(c: Call): Role {
    match c
    case DebaterCall(side) => side
    case MainRefereeCall => MainReferee
    case AssistantRefereeCall => AssistantReferee
  }

  const MainRefereeName: string := "主裁判"
  const AssistantRefereeName: string := "副裁判"

  /** `error.provider || ''`. */
  function ProviderText(provider: Option<string>): string {
    match provider
    case Some(p) => p
    case None => ""
  }

  /** What a debater's message says once its call is over: the answer or a failure description. */
  function DebaterContent(outcome: AgentOutcome<string>): string {
    match outcome
    case Answered(text) => text
    case ApiError(provider, message) => ProviderText(provider) + "模型请求失败: " + message
    case Failed => "AI回复获取失败，请重试。"
  }

  /** What a referee's message says once its call is over. */
  function RefereeContent(outcome: AgentOutcome<RefereeAnswer>, referee: string): string {
    match outcome
    case Answered(answer) => answer.text
    case ApiError(provider, message) => referee + ProviderText(provider) + "模型请求失败: " + message
    case Failed => referee + "评分获取失败"
  }

  /** A referee's score pair after its call: read from the answer, or left as it was on failure. */
  function RefereeScores(outcome: AgentOutcome<RefereeAnswer>, previous: Option<ScoreDetails>): (r: Option<ScoreDetails>)
    ensures outcome.Answered? ==> r.Some? && InScale(r.value)
    ensures outcome.Answered? ==>
      && r.value.affirmativeScore == ValidatedScore(outcome.answer.affirmativeMatch)
      && r.value.negativeScore == ValidatedScore(outcome.answer.negativeMatch)
    ensures !outcome.Answered? ==> r == previous
  {
    match outcome
    case Answered(answer) => Some(ExtractScores(answer))
    case _ => previous
  }

  /** The session's winner after a referee's call: its verdict, or left as it was on failure. */
  function RefereeVerdict(outcome: AgentOutcome<RefereeAnswer>, marker: string, previous: Option<Winner>): (w: Option<Winner>)
    ensures outcome.Answered? ==> w == Some(ExtractWinner(outcome.answer.text, marker, ExtractScores(outcome.answer)))
    ensures !outcome.Answered? ==> w == previous
  {
    match outcome
    case Answered(answer) => Some(ExtractWinner(answer.text, marker, ExtractScores(answer)))
    case _ => previous
  }

  class DebateSession {
    const config: DebateConfig
    var state: DebateState
    /** The next fresh message id (the source draws random ones). */
    var nextId: nat
    /** The agent call in flight, if any, standing for the suspended `await`. */
    var awaiting: Option<Awaiting>
    /** The round at which the current run opened: 1 after `StartDebate`, 0 after a reset. */
    ghost var openingRound: nat

    /** The session invariant. */
    ghost predicate Valid()
      reads this
    {
      && state.totalRounds == config.rounds
      && LogWellFormed()
      && TurnsAlternate()
      && RefereesInOrder()
    }

    /**
     * Ids are fresh and increasing; `processingAction` is set exactly while a call is in
     * flight, and then the last message, and only it, is that call's pending message.
     */
    ghost predicate LogWellFormed()
      reads this
    {
      var log := state.messages;
      && IdsIncreasing(log)
      && IdsBelow(log, nextId)
      && (state.processingAction <==> awaiting.Some?)
      && (forall i :: 0 <= i < |log| && log[i].loading ==> awaiting.Some? && i == |log| - 1)
      && (awaiting.Some? ==>
            |log| > 0 && log[|log| - 1] == Message(awaiting.value.messageId, CallRole(awaiting.value.call), "", true))
    }

    /** 1 if a debater call for `role` is in flight, else 0. */
    ghost function InFlight(role: Role): nat
      reads this
    {
      if awaiting.Some? && awaiting.value.call == DebaterCall(role) then 1 else 0
    }

    /**
     * Completed debater turns alternate, affirmative first: one negative turn per round
     * since the opening round, and one affirmative turn more while the negative side is due.
     */
    ghost predicate TurnsAlternate()
      reads this
    {
      var affirmative := Count(state.messages, Affirmative) - InFlight(Affirmative);
      var negative := Count(state.messages, Negative) - InFlight(Negative);
      && openingRound <= state.currentRound
      && negative == state.currentRound - openingRound
      && affirmative == negative + (if state.isAffirmativeTurn then 0 else 1)
      && (awaiting.Some? && awaiting.value.call.DebaterCall? ==>
            awaiting.value.call.side == TurnRole(state.isAffirmativeTurn))
    }

    /**
     * The referees run once, main first, only after the last round; the finished flag is set
     * after both; scores are on the 0-100 scale and a calibration is derived from them.
     */
    ghost predicate RefereesInOrder()
      reads this
    {
      var main := Count(state.messages, MainReferee);
      var assistant := Count(state.messages, AssistantReferee);
      && main <= 1 && assistant <= main
      && (main == 0 ==>
            && !state.isDebateFinished
            && state.mainRefereeScores.None? && state.assistantRefereeScores.None? && state.winner.None?)
      && (main == 1 ==> state.currentRound > state.totalRounds)
      && (main == 1 && awaiting.None? ==> state.isDebateFinished)
      && (awaiting.Some? && awaiting.value.call.DebaterCall? ==> main == 0)
      && (awaiting.Some? && awaiting.value.call == MainRefereeCall ==>
            && main == 1 && assistant == 0
            && state.mainRefereeScores.None? && state.assistantRefereeScores.None? && state.winner.None?)
      && (awaiting.Some? && awaiting.value.call == AssistantRefereeCall ==>
            main == 1 && assistant == 1 && state.assistantRefereeScores.None?)
      && (state.isDebateFinished ==> awaiting.None? && main == 1 && assistant == 1)
      && (!state.isDebateFinished ==> state.scoreCalibration.None?)
      && (state.mainRefereeScores.Some? ==> InScale(state.mainRefereeScores.value))
      && (state.assistantRefereeScores.Some? ==> InScale(state.assistantRefereeScores.value))
      && (state.scoreCalibration.Some? ==>
            state.scoreCalibration == CalculateScoreCalibration(state.mainRefereeScores, state.assistantRefereeScores))
    }

    /**
     * The session keeps to the schedule the effect drives: at most one round past the last,
     * entered only on the affirmative side's turn, and debater calls only within the rounds.
     */
    ghost predicate OnSchedule()
      reads this
    {
      && state.currentRound <= state.totalRounds + 1
      && (state.currentRound == state.totalRounds + 1 ==> state.isAffirmativeTurn)
      && (awaiting.Some? && awaiting.value.call.DebaterCall? ==> state.currentRound <= state.totalRounds)
    }

    /** Finalisation has attached the calibration and the verdict taken from it. */
    ghost predicate Finalised()
      reads this
    {
      && state.isDebateFinished
      && state.scoreCalibration == CalculateScoreCalibration(state.mainRefereeScores, state.assistantRefereeScores)
      && state.winner == FinalWinner(state.scoreCalibration)
    }

    constructor (config: DebateConfig)
      ensures this.config == config && state == InitialState(config.rounds)
      ensures awaiting.None? && openingRound == 0
      ensures Valid() && OnSchedule()
    {
      this.config := config;
      state := InitialState(config.rounds);
      nextId := 0;
      awaiting := None;
      openingRound := 0;
    }

    /** `addMessage`: appends one message under a fresh id; nothing already logged changes. */
    method AddMessage(role: Role, content: string, loading: bool)
      modifies this`state, this`nextId
      ensures state == old(state).(messages := old(state.messages) + [Message(old(nextId), role, content, loading)])
      ensures nextId > old(nextId)
      ensures old(IdsIncreasing(state.messages) && IdsBelow(state.messages, nextId)) ==>
        IdsIncreasing(state.messages) && IdsBelow(state.messages, nextId)
    {
      state := state.(messages := state.messages + [Message(nextId, role, content, loading)]);
      nextId := nextId + 1;
    }

    /** `updateMessage`: edits the message with `id` in place; every role keeps its count. */
    method UpdateMessage(id: nat, content: string, loading: bool)
      modifies this`state
      ensures state == old(state).(messages := UpdateById(old(state.messages), id, content, loading))
      ensures forall r :: Count(state.messages, r) == Count(old(state.messages), r)
    {
      forall r ensures Count(UpdateById(state.messages, id, content, loading), r) == Count(state.messages, r) {
        CountUpdate(state.messages, id, content, loading, r);
      }
      state := state.(messages := UpdateById(state.messages, id, content, loading));
    }

    /** `togglePause`: flips the pause flag and nothing else, even while a call is in flight. */
    method TogglePause()
      requires Valid()
      modifies this`state
      ensures Valid()
      ensures state == old(state).(isPaused := !old(state.isPaused))
      ensures old(OnSchedule()) ==> OnSchedule()
    {
      state := state.(isPaused := !state.isPaused);
    }

    /** `resetDebate`: back to the initial state, not started. */
    method ResetDebate()
      requires awaiting.None?
      modifies this`state, this`openingRound
      ensures state == InitialState(config.rounds) && openingRound == 0
      ensures Valid() && OnSchedule()
    {
      state := InitialState(config.rounds);
      openingRound := 0;
    }

    /** `startDebate`: reset, then open round 1. */
    method StartDebate()
      requires awaiting.None?
      modifies this`state, this`openingRound
      ensures state == InitialState(config.rounds).(currentRound := 1) && openingRound == 1
      ensures Valid() && OnSchedule()
    {
      ResetDebate();
      state := state.(currentRound := 1);
      openingRound := 1;
    }

    /** Appending `m` adds one to the count of its role and leaves the others alone. */
    static lemma CountsAfterAppend(log: seq<Message>, m: Message)
      ensures forall r :: Count(log + [m], r) == Count(log, r) + (if m.role == r then 1 else 0)
    {
      forall r ensures Count(log + [m], r) == Count(log, r) + (if m.role == r then 1 else 0) {
        FilterAppend(log, m, r);
      }
    }

    /** Appends a pending message for `call` under a fresh id and suspends on it. */
    method Issue(call: Call)
      requires IdsIncreasing(state.messages) && IdsBelow(state.messages, nextId)
      requires forall i :: 0 <= i < |state.messages| ==> !state.messages[i].loading
      requires awaiting.None?
      modifies this`state, this`nextId, this`awaiting
      ensures state == old(state).(
        messages := old(state.messages) + [Message(old(nextId), CallRole(call), "", true)],
        processingAction := true)
      ensures awaiting == Some(Awaiting(call, old(nextId))) && nextId == old(nextId) + 1
      ensures LogWellFormed()
      ensures forall r :: Count(state.messages, r) == Count(old(state.messages), r) + (if CallRole(call) == r then 1 else 0)
    {
      CountsAfterAppend(state.messages, Message(nextId, CallRole(call), "", true));
      state := state.(messages := state.messages + [Message(nextId, CallRole(call), "", true)], processingAction := true);
      awaiting := Some(Awaiting(call, nextId));
      nextId := nextId + 1;
    }

    /**
     * `runNextStep`, up to its `await`: nothing happens while a call is in flight, once
     * finished, or while paused; otherwise the side whose turn it is gets a pending message
     * and its call is issued.
     */
    method RunNextStep()
      requires Valid()
      modifies this`state, this`nextId, this`awaiting
      ensures Valid()
      ensures old(state.processingAction || state.isDebateFinished || state.isPaused) ==>
        state == old(state) && nextId == old(nextId) && awaiting == old(awaiting)
      ensures !old(state.processingAction || state.isDebateFinished || state.isPaused) ==>
        var role := TurnRole(old(state.isAffirmativeTurn));
        && state == old(state).(messages := old(state.messages) + [Message(old(nextId), role, "", true)],
                                processingAction := true)
        && awaiting == Some(Awaiting(DebaterCall(role), old(nextId)))
      ensures old(OnSchedule()) && old(state.currentRound) <= state.totalRounds ==> OnSchedule()
    {
      if state.processingAction || state.isDebateFinished || state.isPaused {
        return;
      }
      Issue(DebaterCall(TurnRole(state.isAffirmativeTurn)));
    }

    /** Editing the pending (last) message in place keeps every count and clears every loading flag. */
    method Complete(content: string)
      requires LogWellFormed() && awaiting.Some?
      modifies this`state
      ensures state == old(state).(messages := UpdateById(old(state.messages), old(awaiting.value.messageId), content, false))
      ensures forall r :: Count(state.messages, r) == Count(old(state.messages), r)
      ensures forall i :: 0 <= i < |state.messages| ==> !state.messages[i].loading
      ensures IdsIncreasing(state.messages) && IdsBelow(state.messages, nextId)
    {
      var log := state.messages;
      var id := awaiting.value.messageId;
      forall r ensures Count(UpdateById(log, id, content, false), r) == Count(log, r) {
        CountUpdate(log, id, content, false, r);
      }
      var updated := UpdateById(log, id, content, false);
      forall i | 0 <= i < |log| ensures !updated[i].loading {
        if i < |log| - 1 {
          assert log[i].id < log[|log| - 1].id;
        }
      }
      state := state.(messages := updated);
    }

    /**
     * The rest of `runNextStep` once the debater's call is over, applied even while paused:
     * its message takes the answer or a failure description; an affirmative turn hands over
     * to the negative side in the same round, a negative turn hands back and opens the next.
     */
    method ResolveDebaterTurn(outcome: AgentOutcome<string>)
      requires Valid() && awaiting.Some? && awaiting.value.call.DebaterCall?
      modifies this`state, this`awaiting
      ensures Valid() && awaiting.None?
      ensures var s := old(state);
        var messages := UpdateById(s.messages, old(awaiting.value.messageId), DebaterContent(outcome), false);
        if s.isAffirmativeTurn then
          state == s.(messages := messages, isAffirmativeTurn := false, processingAction := false)
        else
          state == s.(messages := messages, isAffirmativeTurn := true, currentRound := s.currentRound + 1,
                      processingAction := false)
      ensures old(OnSchedule()) ==> OnSchedule()
    {
      Complete(DebaterContent(outcome));
      if state.isAffirmativeTurn {
        state := state.(isAffirmativeTurn := false, processingAction := false);
      } else {
        state := state.(isAffirmativeTurn := true, currentRound := state.currentRound + 1, processingAction := false);
      }
      awaiting := None;
    }

    /**
     * The `runDebate` effect: when the session is started, idle, not paused and not finished,
     * it calls the main referee once the rounds are over and runs the next debater step
     * otherwise. Refereeing begins only after as many turns per side as rounds since the
     * opening round.
     */
    method RunDebate()
      requires Valid()
      modifies this`state, this`nextId, this`awaiting
      ensures Valid()
      ensures !Eligible(old(state)) ==> state == old(state) && nextId == old(nextId) && awaiting == old(awaiting)
      ensures Eligible(old(state)) && old(state.currentRound) > state.totalRounds ==>
        && state == old(state).(messages := old(state.messages) + [Message(old(nextId), MainReferee, "", true)],
                                processingAction := true)
        && awaiting == Some(Awaiting(MainRefereeCall, old(nextId)))
      ensures Eligible(old(state)) && old(state.currentRound) <= state.totalRounds ==>
        var role := TurnRole(old(state.isAffirmativeTurn));
        && state == old(state).(messages := old(state.messages) + [Message(old(nextId), role, "", true)],
                                processingAction := true)
        && awaiting == Some(Awaiting(DebaterCall(role), old(nextId)))
      ensures old(OnSchedule()) ==> OnSchedule()
      ensures old(OnSchedule()) && awaiting.Some? && awaiting.value.call == MainRefereeCall ==>
        Count(state.messages, Affirmative) == Count(state.messages, Negative) == state.totalRounds + 1 - openingRound
    {
      if state.currentRound > 0 && !state.processingAction && !state.isPaused && !state.isDebateFinished {
        if state.currentRound > state.totalRounds {
          BeginRefereeing();
        } else {
          RunNextStep();
        }
      }
    }

    /** The refereeing branch of `runDebate`: the main referee's call is issued. */
    method BeginRefereeing()
      requires Valid() && Eligible(state) && state.currentRound > state.totalRounds
      modifies this`state, this`nextId, this`awaiting
      ensures Valid()
      ensures state == old(state).(messages := old(state.messages) + [Message(old(nextId), MainReferee, "", true)],
                                   processingAction := true)
      ensures awaiting == Some(Awaiting(MainRefereeCall, old(nextId)))
      ensures old(OnSchedule()) ==> OnSchedule()
      ensures old(OnSchedule()) ==>
        Count(state.messages, Affirmative) == Count(state.messages, Negative) == state.totalRounds + 1 - openingRound
    {
      Issue(MainRefereeCall);
    }

    /**
     * The main referee's call is over: its message takes the answer or a failure description;
     * an answer sets the main score pair and the session's winner. Then the assistant
     * referee's call is issued.
     */
    method ResolveMainReferee(outcome: AgentOutcome<RefereeAnswer>)
      requires Valid() && awaiting.Some? && awaiting.value.call == MainRefereeCall
      modifies this`state, this`nextId, this`awaiting
      ensures Valid()
      ensures var s := old(state);
        var read := s.(
          messages := UpdateById(s.messages, old(awaiting.value.messageId), RefereeContent(outcome, MainRefereeName), false),
          mainRefereeScores := RefereeScores(outcome, s.mainRefereeScores),
          winner := RefereeVerdict(outcome, MainVerdictLabel, s.winner));
        state == read.(messages := read.messages + [Message(old(nextId), AssistantReferee, "", true)])
      ensures awaiting == Some(Awaiting(AssistantRefereeCall, old(nextId)))
    {
      CompleteMainReferee(outcome);
      Issue(AssistantRefereeCall);
    }

    /** The main referee's continuation up to the next call: its message, score pair and verdict. */
    method CompleteMainReferee(outcome: AgentOutcome<RefereeAnswer>)
      requires Valid() && awaiting.Some? && awaiting.value.call == MainRefereeCall
      modifies this`state, this`awaiting
      ensures var s := old(state);
        state == s.(
          messages := UpdateById(s.messages, old(awaiting.value.messageId), RefereeContent(outcome, MainRefereeName), false),
          mainRefereeScores := RefereeScores(outcome, s.mainRefereeScores),
          winner := RefereeVerdict(outcome, MainVerdictLabel, s.winner))
      ensures awaiting.None?
      ensures forall r :: Count(state.messages, r) == Count(old(state.messages), r)
      ensures forall i :: 0 <= i < |state.messages| ==> !state.messages[i].loading
      ensures IdsIncreasing(state.messages) && IdsBelow(state.messages, nextId)
      ensures Count(state.messages, MainReferee) == 1 && Count(state.messages, AssistantReferee) == 0
      ensures state.mainRefereeScores.Some? ==> InScale(state.mainRefereeScores.value)
    {
      Complete(RefereeContent(outcome, MainRefereeName));
      state := state.(
        mainRefereeScores := RefereeScores(outcome, state.mainRefereeScores),
        winner := RefereeVerdict(outcome, MainVerdictLabel, state.winner));
      awaiting := None;
    }

    /**
     * The assistant referee's call is over: its message and, on an answer, its score pair and
     * the winner are set as for the main referee; then the debate is finished and idle.
     */
    method ResolveAssistantReferee(outcome: AgentOutcome<RefereeAnswer>)
      requires Valid() && awaiting.Some? && awaiting.value.call == AssistantRefereeCall
      modifies this`state, this`awaiting
      ensures Valid() && awaiting.None?
      ensures var s := old(state);
        state == s.(
          messages := UpdateById(s.messages, old(awaiting.value.messageId), RefereeContent(outcome, AssistantRefereeName), false),
          assistantRefereeScores := RefereeScores(outcome, s.assistantRefereeScores),
          winner := RefereeVerdict(outcome, AssistantVerdictLabel, s.winner),
          isDebateFinished := true,
          processingAction := false)
    {
      Complete(RefereeContent(outcome, AssistantRefereeName));
      state := state.(
        assistantRefereeScores := RefereeScores(outcome, state.assistantRefereeScores),
        winner := RefereeVerdict(outcome, AssistantVerdictLabel, state.winner),
        isDebateFinished := true,
        processingAction := false);
      awaiting := None;
    }

    /**
     * The finalisation effect: once the debate is finished and both referees' messages are
     * complete, the calibration is computed and the winner is replaced by the verdict of the
     * totals. A finished session always qualifies, and finalising twice changes nothing.
     */
    method Finalise()
      requires Valid()
      modifies this`state
      ensures Valid()
      ensures var s := old(state);
        var calibration := CalculateScoreCalibration(s.mainRefereeScores, s.assistantRefereeScores);
        if s.isDebateFinished then state == s.(scoreCalibration := calibration, winner := FinalWinner(calibration))
        else state == s
      ensures old(state.isDebateFinished) ==> Finalised()
      ensures old(Finalised()) ==> state == old(state)
    {
      if state.isDebateFinished && !state.processingAction {
        var main := Filter(state.messages, MainReferee);
        var assistant := Filter(state.messages, AssistantReferee);
        FilterMembers(state.messages, MainReferee);
        FilterMembers(state.messages, AssistantReferee);
        forall i | 0 <= i < |main| ensures !main[i].loading {
          assert main[i] in state.messages;
        }
        forall i | 0 <= i < |assistant| ensures !assistant[i].loading {
          assert assistant[i] in state.messages;
        }
        if Completed(state.messages, MainReferee) && Completed(state.messages, AssistantReferee) {
          var calibration := CalculateScoreCalibration(state.mainRefereeScores, state.assistantRefereeScores);
          state := state.(scoreCalibration := calibration, winner := FinalWinner(calibration));
        }
      }
    }
  }

  /** One debater turn as the effect drives it: the call is issued and its outcome lands. */
  method PlayTurn(session: DebateSession, outcome: AgentOutcome<string>)
    requires session.Valid() && session.OnSchedule() && Eligible(session.state)
    requires session.state.currentRound <= session.state.totalRounds
    modifies session
    ensures session.Valid() && session.OnSchedule() && Eligible(session.state)
    ensures session.state.isAffirmativeTurn == !old(session.state.isAffirmativeTurn)
    ensures session.state.currentRound == old(session.state.currentRound) + (if old(session.state.isAffirmativeTurn) then 0 else 1)
    ensures session.openingRound == old(session.openingRound)
  {
    session.RunDebate();
    session.ResolveDebaterTurn(outcome);
  }

  /**
   * A debater call issued and then paused while in flight: the outcome still lands in the
   * pending message and hands the turn over, and the session is left paused and idle.
   */
  method PauseInFlight(session: DebateSession, outcome: AgentOutcome<string>)
    requires session.Valid() && session.OnSchedule() && Eligible(session.state)
    requires session.state.currentRound <= session.state.totalRounds
    modifies session
    ensures session.Valid() && session.OnSchedule()
    ensures session.state.isPaused && !session.state.processingAction && !session.state.isDebateFinished
    ensures session.state.isAffirmativeTurn == !old(session.state.isAffirmativeTurn)
    ensures session.state.currentRound == old(session.state.currentRound) + (if old(session.state.isAffirmativeTurn) then 0 else 1)
    ensures session.openingRound == old(session.openingRound)
    ensures var pending := Message(old(session.nextId), TurnRole(old(session.state.isAffirmativeTurn)), "", true);
      session.state.messages == UpdateById(old(session.state.messages) + [pending], pending.id, DebaterContent(outcome), false)
  {
    session.RunDebate();
    ResolveWhilePaused(session, outcome);
  }

  /** The pause is taken while a debater call is in flight, and then the call's outcome lands. */
  method ResolveWhilePaused(session: DebateSession, outcome: AgentOutcome<string>)
    requires session.Valid() && session.OnSchedule() && !session.state.isPaused
    requires session.awaiting.Some? && session.awaiting.value.call.DebaterCall?
    modifies session
    ensures session.Valid() && session.OnSchedule()
    ensures session.state.isPaused && !session.state.processingAction
    ensures session.state.isDebateFinished == old(session.state.isDebateFinished)
    ensures session.state.isAffirmativeTurn == !old(session.state.isAffirmativeTurn)
    ensures session.state.currentRound == old(session.state.currentRound) + (if old(session.state.isAffirmativeTurn) then 0 else 1)
    ensures session.openingRound == old(session.openingRound)
    ensures session.state.messages ==
      UpdateById(old(session.state.messages), old(session.awaiting.value.messageId), DebaterContent(outcome), false)
  {
    session.TogglePause();
    session.ResolveDebaterTurn(outcome);
  }

  /**
   * A debater turn with a pause taken while its call is in flight: the effect does nothing
   * while paused, and resuming restores an idle session that has handed the turn over.
   */
  method PausedTurn(session: DebateSession, outcome: AgentOutcome<string>)
    requires session.Valid() && session.OnSchedule() && Eligible(session.state)
    requires session.state.currentRound <= session.state.totalRounds
    modifies session
    ensures session.Valid() && session.OnSchedule() && Eligible(session.state)
    ensures session.state.isAffirmativeTurn == !old(session.state.isAffirmativeTurn)
    ensures session.state.currentRound == old(session.state.currentRound) + (if old(session.state.isAffirmativeTurn) then 0 else 1)
    ensures session.openingRound == old(session.openingRound)
    ensures var pending := Message(old(session.nextId), TurnRole(old(session.state.isAffirmativeTurn)), "", true);
      session.state.messages == UpdateById(old(session.state.messages) + [pending], pending.id, DebaterContent(outcome), false)
  {
    PauseInFlight(session, outcome);
    ghost var held := session.state;
    session.RunDebate();
    assert session.state == held;
    session.TogglePause();
  }

  /**
   * The referees' part as the effect drives it, then finalisation: each referee speaks once,
   * each side has spoken once per round since the opening round, and the published winner
   * is the verdict of the totals, which exists exactly when both referees answered.
   */
  method Referee(session: DebateSession, main: AgentOutcome<RefereeAnswer>, assistant: AgentOutcome<RefereeAnswer>)
    requires session.Valid() && session.OnSchedule() && Eligible(session.state)
    requires session.state.currentRound > session.state.totalRounds
    modifies session
    ensures session.Valid() && session.Finalised()
    ensures session.openingRound == old(session.openingRound)
    ensures Count(session.state.messages, Affirmative) == session.state.totalRounds + 1 - session.openingRound
    ensures Count(session.state.messages, Negative) == session.state.totalRounds + 1 - session.openingRound
    ensures Count(session.state.messages, MainReferee) == 1 && Count(session.state.messages, AssistantReferee) == 1
    ensures session.state.winner.Some? <==> main.Answered? && assistant.Answered?
    ensures main.Answered? && assistant.Answered? ==>
      session.state.winner == FinalWinner(CalculateScoreCalibration(Some(ExtractScores(main.answer)), Some(ExtractScores(assistant.answer))))
  {
    RefereeCalls(session, main, assistant);
    session.Finalise();
  }

  /** The two referee calls in order; the debaters' counts are left as they were. */
  method RefereeCalls(session: DebateSession, main: AgentOutcome<RefereeAnswer>, assistant: AgentOutcome<RefereeAnswer>)
    requires session.Valid() && session.OnSchedule() && Eligible(session.state)
    requires session.state.currentRound > session.state.totalRounds
    modifies session
    ensures session.Valid() && session.state.isDebateFinished
    ensures session.openingRound == old(session.openingRound)
    ensures Count(session.state.messages, Affirmative) == session.state.totalRounds + 1 - session.openingRound
    ensures Count(session.state.messages, Negative) == session.state.totalRounds + 1 - session.openingRound
    ensures Count(session.state.messages, MainReferee) == 1 && Count(session.state.messages, AssistantReferee) == 1
    ensures session.state.mainRefereeScores.Some? <==> main.Answered?
    ensures session.state.assistantRefereeScores.Some? <==> assistant.Answered?
    ensures main.Answered? ==> session.state.mainRefereeScores == Some(ExtractScores(main.answer))
    ensures assistant.Answered? ==> session.state.assistantRefereeScores == Some(ExtractScores(assistant.answer))
  {
    session.RunDebate();
    session.ResolveMainReferee(main);
    assert session.state.mainRefereeScores.Some? <==> main.Answered?;
    session.ResolveAssistantReferee(assistant);
  }

  /**
   * A two-round debate driven as the page drives it, with a pause taken while the first
   * call is in flight: the paused call still lands, nothing moves until the pause is lifted,
   * each side speaks twice before the referees, each referee speaks once, and the published
   * winner is the verdict of the totals.
   */
  method TwoRoundDebate(
    topic: string,
    a1: AgentOutcome<string>, n1: AgentOutcome<string>, a2: AgentOutcome<string>, n2: AgentOutcome<string>,
    main: AgentOutcome<RefereeAnswer>, assistant: AgentOutcome<RefereeAnswer>)
    returns (session: DebateSession)
    ensures session.Valid() && session.Finalised()
    ensures Count(session.state.messages, Affirmative) == 2 && Count(session.state.messages, Negative) == 2
    ensures Count(session.state.messages, MainReferee) == 1 && Count(session.state.messages, AssistantReferee) == 1
    ensures session.state.winner.Some? <==> main.Answered? && assistant.Answered?
    ensures main.Answered? && assistant.Answered? ==>
      session.state.winner == FinalWinner(CalculateScoreCalibration(Some(ExtractScores(main.answer)), Some(ExtractScores(assistant.answer))))
  {
    session := new DebateSession(DebateConfig(topic, 2, 1.0, 0.7, 1536, true));
    session.StartDebate();
    PlayRound(session, a1, n1, true);
    PlayRound(session, a2, n2, false);
    Referee(session, main, assistant);
  }

  /** One full round: the affirmative turn, optionally paused while in flight, then the negative turn. */
  method PlayRound(session: DebateSession, affirmative: AgentOutcome<string>, negative: AgentOutcome<string>, pause: bool)
    requires session.Valid() && session.OnSchedule() && Eligible(session.state)
    requires session.state.isAffirmativeTurn && session.state.currentRound <= session.state.totalRounds
    modifies session
    ensures session.Valid() && session.OnSchedule() && Eligible(session.state)
    ensures session.state.isAffirmativeTurn && session.state.currentRound == old(session.state.currentRound) + 1
    ensures session.openingRound == old(session.openingRound)
  {
    if pause {
      PausedTurn(session, affirmative);
    } else {
      PlayTurn(session, affirmative);
    }
    PlayTurn(session, negative);
  }
}
