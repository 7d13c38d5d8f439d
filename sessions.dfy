/** The in-memory session store behind the conversation endpoints: a map
    from session id to a history that only ever grows, three messages per
    exchange. */
module Sessions {
  import opened Strings
  import opened Messages
  import opened Provider
  import ConversationAnalyzer
  import EmotionDetector
  import MioBot
  import VoiceFeedback
  import MioImpression

  /** An endpoint's answer, or the 404 an unknown session id gets. */
  datatype Response<T> = Ok(value: T) | SessionNotFound

  /** `ConversationResponse` */
  datatype ConversationResponse = ConversationResponse(
    botResponse: string,
    voiceFeedback: string,
    detectedPatterns: seq<string>)

  /** What one utterance produces. The reply and the feedback are computed
      from the history the client sends, never from the stored one. */
  function Respond(userMessage: string, clientHistory: seq<Message>, complete: Completion)
    : (r: ConversationResponse)
    ensures |r.detectedPatterns| == 1 && r.detectedPatterns[0] in EmotionDetector.ValidEmotions
    ensures ConversationAnalyzer.RuleCheck(userMessage).Some? ==>
      r.voiceFeedback == ConversationAnalyzer.RuleCheck(userMessage).value
  {
    var emotion := EmotionDetector.Detect(userMessage, complete);
    ConversationResponse(
      MioBot.Reply(userMessage, clientHistory, complete),
      VoiceFeedback.Feedback(userMessage, emotion, clientHistory, complete),
      [emotion])
  }

  /** The three messages one exchange appends: the utterance, the reply and
      the feedback. */
  function Round(userMessage: string, r: ConversationResponse): (round: seq<Message>)
    ensures |round| == 3
    ensures round[0] == Message(User, userMessage)
    ensures round[1].role == Bot && round[2].role == Voice
  {
    [Message(User, userMessage), Message(Bot, r.botResponse), Message(Voice, r.voiceFeedback)]
  }

  class SessionStore {
    /** `sessions`: id to stored history (creation times are not modelled). */
    var sessions: map<string, seq<Message>>

    /** Every stored history is made of whole user, bot, voice rounds. */
    predicate Valid()
      reads this
    {
      forall id :: id in sessions ==> WellFormedHistory(sessions[id])
    }

    constructor()
      ensures Valid() && sessions == map[]
    {
      sessions := map[];
    }

    /** `create_session`: the caller supplies the fresh id `uuid4` would
        draw. */
    method CreateSession(sessionId: string)
      requires Valid()
      requires sessionId !in sessions
      modifies this
      ensures Valid()
      ensures sessions == old(sessions)[sessionId := []]
    {
      sessions := sessions[sessionId := []];
    }

    /** `send_message`: an unknown id is refused with nothing changed;
        otherwise the round is appended to that session alone. */
    method SendMessage(sessionId: string, userMessage: string, clientHistory: seq<Message>, complete: Completion)
      returns (r: Response<ConversationResponse>)
      requires Valid()
      modifies this
      ensures Valid()
      ensures sessionId !in old(sessions) ==> r == SessionNotFound && sessions == old(sessions)
      ensures sessionId in old(sessions) ==>
        && r == Ok(Respond(userMessage, clientHistory, complete))
        && sessions == old(sessions)[sessionId := old(sessions)[sessionId] + Round(userMessage, r.value)]
    {
      if sessionId !in sessions {
        return SessionNotFound;
      }
      var emotion := EmotionDetector.Detect(userMessage, complete);
      var botResponse := MioBot.GenerateResponse(userMessage, clientHistory, complete);
      var voiceFeedback := VoiceFeedback.Generate(userMessage, emotion, clientHistory, complete);
      var response := ConversationResponse(botResponse, voiceFeedback, [emotion]);
      RespondParts(userMessage, clientHistory, complete, response);
      var history := sessions[sessionId] + Round(userMessage, response);
      AppendRound(sessions[sessionId], userMessage, botResponse, voiceFeedback);
      ghost var updated := StoreStaysValid(sessions, sessionId, history);
      sessions := sessions[sessionId := history];
      r := Ok(response);
    }

    /** `end_conversation`: an unknown id is refused; otherwise the closing
        impression of the stored history. The session is kept. */
    method EndConversation(sessionId: string, pick: MioImpression.Pick, complete: Completion)
      returns (r: Response<MioImpression.ImpressionResult>)
      ensures sessionId !in sessions ==> r == SessionNotFound
      ensures sessionId in sessions ==>
        r == Ok(MioImpression.FinalImpression(sessions, sessionId, pick, complete))
    {
      if sessionId !in sessions {
        return SessionNotFound;
      }
      var impression := MioImpression.GenerateFinalImpression(sessions, sessionId, pick, complete);
      r := Ok(impression);
    }
  }

  // ---------------------------------------------------------------------
  // Lemmas

  lemma RespondParts(userMessage: string, clientHistory: seq<Message>, complete: Completion, r: ConversationResponse)
    requires r.detectedPatterns == [EmotionDetector.Detect(userMessage, complete)]
    requires r.botResponse == MioBot.Reply(userMessage, clientHistory, complete)
    requires r.voiceFeedback ==
      VoiceFeedback.Feedback(userMessage, r.detectedPatterns[0], clientHistory, complete)
    ensures r == Respond(userMessage, clientHistory, complete)
  {
  }

  lemma StoreStaysValid(sessions: map<string, seq<Message>>, sessionId: string, history: seq<Message>)
    returns (updated: map<string, seq<Message>>)
    requires forall id :: id in sessions ==> WellFormedHistory(sessions[id])
    requires WellFormedHistory(history)
    ensures updated == sessions[sessionId := history]
    ensures forall id :: id in updated ==> WellFormedHistory(updated[id])
  {
    updated := sessions[sessionId := history];
  }

  /** A stored history holds exactly one user message per exchange. */
  lemma StoredUserTurns(sessions: map<string, seq<Message>>, sessionId: string)
    requires forall id :: id in sessions ==> WellFormedHistory(sessions[id])
    requires sessionId in sessions
    ensures |UserMessages(sessions[sessionId])| == |sessions[sessionId]| / 3
  {
    UserCountOfRounds(sessions[sessionId]);
  }
}
