/** MioBot: the character's in-persona reply. The prompt sees only the last
    five messages of the client-supplied history; the answer is trimmed and
    loses one leading name label. */
module MioBot {
  import opened Strings
  import opened Messages
  import opened Provider

  /** How many of the most recent messages, of any role, reach the prompt. */
  const WindowSize: nat := 5
  const FillerReply: string := "えーっと、ちょっと考えちゃった〜💦"
  /** The character's name label, full-width and half-width colon; both
      are three characters long. */
  const NameLabelWide: string := "みお："
  const NameLabelNarrow: string := "みお:"

  /** `conversation_history[-5:]` */
  function HistoryWindow(history: seq<Message>): (window: seq<Message>)
    ensures |window| == if |history| <= WindowSize then |history| else WindowSize
    ensures window == history[|history| - |window|..]
  {
    if |history| <= WindowSize then history else history[|history| - WindowSize..]
  }

  /** Drops one leading name label from an already trimmed answer. */
  function StripNameLabel(result: string): (r: string)
    ensures |r| <= |result|
    ensures (result == [] || (!IsSpace(result[0]) && !IsSpace(result[|result| - 1]))) ==>
      (r == [] || (!IsSpace(r[0]) && !IsSpace(r[|r| - 1])))
  {
    if StartsWith(result, NameLabelWide) || StartsWith(result, NameLabelNarrow)
    then Strip(result[3..])
    else result
  }

  /** Post-processing of the provider's answer; a failed call gives the filler. */
  function FinishReply(answer: Option<string>): (reply: string)
    ensures answer.None? ==> reply == FillerReply
    ensures answer.Some? ==> |reply| <= |answer.value|
    ensures reply == [] || (!IsSpace(reply[0]) && !IsSpace(reply[|reply| - 1]))
  {
    match answer
    case None =>
      assert FillerReply[0] == 'え' && FillerReply[|FillerReply| - 1] == '💦';
      FillerReply
    case Some(text) => StripNameLabel(Strip(text))
  }

  /** The reply `generate_response` returns for an utterance and the
      client-supplied history. */
  function Reply(userMessage: string, history: seq<Message>, complete: Completion): (reply: string)
    ensures complete(ReplyPrompt(Transcript(HistoryWindow(history), CustomerTag), userMessage)).None? ==> reply == FillerReply
    ensures reply == [] || (!IsSpace(reply[0]) && !IsSpace(reply[|reply| - 1]))
  {
    FinishReply(complete(ReplyPrompt(Transcript(HistoryWindow(history), CustomerTag), userMessage)))
  }

  /** `MioBot.generate_response` */
  method GenerateResponse(userMessage: string, history: seq<Message>, complete: Completion)
    returns (reply: string)
    ensures reply == Reply(userMessage, history, complete)
  {
    var historyText := RenderTranscript(HistoryWindow(history), CustomerTag);
    match complete(ReplyPrompt(historyText, userMessage))
    case None =>
      reply := FillerReply;
    case Some(text) =>
      var result := Strip(text);
      if StartsWith(result, NameLabelWide) || StartsWith(result, NameLabelNarrow) {
        result := Strip(result[3..]);
      }
      reply := result;
  }

  // ---------------------------------------------------------------------
  // Lemmas

  /** Turns before the last five are dropped entirely: whatever precedes
      five messages cannot change the reply. */
  lemma OlderTurnsIgnored(userMessage: string, older: seq<Message>, recent: seq<Message>, complete: Completion)
    requires |recent| >= WindowSize
    ensures Reply(userMessage, older + recent, complete) == Reply(userMessage, recent, complete)
  {
    var h := older + recent;
    assert h[|h| - WindowSize..] == recent[|recent| - WindowSize..];
    assert HistoryWindow(h) == HistoryWindow(recent);
  }

  lemma {:induction false} TranscriptWithoutChat(h: seq<Message>, userTag: string)
    requires forall i :: 0 <= i < |h| ==> !IsChat(h[i])
    ensures Transcript(h, userTag) == ""
  {
    if h != [] {
      TranscriptWithoutChat(h[..|h| - 1], userTag);
    }
  }

  /** A voice message uses up a slot of the window although it is not
      rendered: five trailing voice messages leave the prompt's history
      empty, whatever came before them. */
  lemma VoiceFillsWindow(history: seq<Message>)
    requires |history| >= WindowSize
    requires forall i :: |history| - WindowSize <= i < |history| ==> history[i].role == Voice
    ensures Transcript(HistoryWindow(history), CustomerTag) == ""
  {
    var w := HistoryWindow(history);
    assert forall i :: 0 <= i < |w| ==> w[i] == history[|history| - WindowSize + i];
    TranscriptWithoutChat(w, CustomerTag);
  }

  /** One name label after any leading whitespace is removed, and the rest
      comes back trimmed, whatever whitespace it carries. */
  lemma OneNameLabelRemoved(lead: string, body: string, wide: bool)
    requires AllSpace(lead)
    ensures FinishReply(Some(lead + (if wide then NameLabelWide else NameLabelNarrow) + body)) == Strip(body)
  {
    var lbl := if wide then NameLabelWide else NameLabelNarrow;
    LabelledStrip(lead, lbl, body);
    LabelThenRest(wide, StripEnd(body));
    StripAfterStripEnd(body);
  }

  lemma LabelThenRest(wide: bool, rest: string)
    ensures StripNameLabel((if wide then NameLabelWide else NameLabelNarrow) + rest) == Strip(rest)
  {
    var t := (if wide then NameLabelWide else NameLabelNarrow) + rest;
    assert t[..3] == (if wide then NameLabelWide else NameLabelNarrow);
    assert t[3..] == rest;
  }

  /** Stripping whitespace, a label and a body leaves the label in front of
      the body without its trailing whitespace. */
  lemma LabelledStrip(lead: string, lbl: string, body: string)
    requires AllSpace(lead) && |lbl| == 3 && !IsSpace(lbl[0]) && !IsSpace(lbl[2])
    ensures Strip(lead + lbl + body) == lbl + StripEnd(body)
  {
    assert lead + lbl + body == lead + (lbl + body);
    StripStartConcat(lead, lbl + body);
    StripStartAllSpace(lead);
    assert [] + (lbl + body) == lbl + body;
    StripEndConcat(lbl, body);
  }

  /** An answer that does not start with the label is only trimmed. */
  lemma UnlabelledAnswerTrimmed(text: string)
    requires !StartsWith(Strip(text), NameLabelWide) && !StartsWith(Strip(text), NameLabelNarrow)
    ensures FinishReply(Some(text)) == Strip(text)
  {
  }

  /** The reply never carries outer whitespace. */
  lemma ReplyIsTrimmed(answer: Option<string>)
    ensures Strip(FinishReply(answer)) == FinishReply(answer)
  {
    StripStripped(FinishReply(answer));
  }
}
