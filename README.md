# Conversation-practice pipeline in Dafny

This project models the turn-processing and scoring core of a conversation
practice service (`main.py`). A user chats with "Mio", an in-persona hostess
character. After each utterance a coaching "voice from above" comments on
it, and at the end of a session Mio gives a closing impression with scores.

The modules follow the classes of `main.py`:

- `Strings` models the Python `str` operations the code relies on:
  - `strip()`, using the exact set of code points for which `str.isspace` is true;
  - `in`, `startswith` and `endswith`;
  - `replace` of one character;
  - `split('\n\n')` and `join`.
- `Messages` holds the history entries, their rendering into transcript
  lines, and the round structure of stored histories. `Provider` models the
  generative-language provider as a total function `Completion` from a
  prompt to `Option<string>`. `None` stands for every failure: no model
  configured, an exception, or an empty response.
- `ConversationAnalyzer` holds the four rule checks and their fixed order.
- `EmotionDetector` coerces a provider answer into the ten-label set.
- `MioBot` holds the five-message history window and the reply
  post-processing.
- `VoiceFeedback` holds the backward walk that builds the recent window, the
  rule short-circuit and the 400-character cap policy.
- `MioImpression` holds the emotion scores, memorable moments, the
  want-to-talk-again score, the tier choice and the never-failing final
  impression.
- `Sessions` holds the session store as a class with a `map` field, plus the
  create, message and end endpoints.

Loops in the source are methods with loop invariants, each proved equal to a
specification function. The methods are:

- the transcript builders;
- the backward walk of `_extract_recent_conversation`;
- the nested score loop;
- the moment scan.

The want-to-talk-again score has no loop. It is a sequence of updates to one
variable, so `CalculateWantToTalkAgain` is a method that performs those
updates in order and is proved equal to the clamped formula
`WantToTalkAgain`. The properties the source promises are then proved about
those functions.

Two properties of the code that are easy to misread:

- **Empty history.** It scores 31: 50, plus 1 from the base emotion scores,
  minus 20 because the user wrote fewer than 50 characters
  (`EmptyConversationScore`).
- **The 400-character cap is not a bound.** The comment at main.py:322-323
  says the limit was relaxed on purpose. An answer longer than 400
  characters is cut back to its first four sections, which may still be
  longer than 400; an answer of exactly four sections passes unchanged
  (`FourSectionsKeptWhole`). Only the ellipsis branch yields exactly 400
  characters.

Consequences of the code as written, proved here:

- Every score computed from a history is at least 31, so the pipeline never
  selects the low tier or its fallback remarks (`PipelineNeverLow`).
- The listed short acknowledgements add nothing to the three-character
  length test (`ShortResponseIffTrimmedLength`).

## Model

| member | source | states |
|---|---|---|
| Strings.StripStart | main.py:114 | the leading-whitespace half of `strip`: a suffix of the input, all that was dropped is whitespace, and it starts with a non-space |
| Strings.StripEnd | main.py:114 | the trailing half: a prefix of the input, all that was dropped is whitespace, and it ends with a non-space |
| Strings.Strip | main.py:114 | never longer, and no whitespace at either end |
| Strings.StripFramed | main.py:114 | a trimmed word between any two runs of whitespace strips to itself |
| Strings.StripAfterStripEnd | main.py:179-180 | trimming the end first does not change a full strip |
| Strings.RemoveAll | main.py:117 | `replace(c, '')`: never longer, no `c` left, every other character kept exactly when it occurs |
| Strings.RemoveAllConcat | main.py:117 | removal works piece by piece over a concatenation |
| Strings.Split | main.py:326 | at least one piece, and the first piece is a prefix of the string |
| Strings.JoinSplit | main.py:326-329 | joining the pieces of a split with the separator gives back the string |
| ConversationAnalyzer.CheckInappropriateContent | main.py:68-73 | fires exactly when some block-listed word occurs anywhere in the utterance, and then answers the fixed topic message |
| ConversationAnalyzer.CheckShortResponse | main.py:76-81 | when it fires it answers the elaborate-more message |
| ConversationAnalyzer.ShortResponseIffTrimmedLength | main.py:76-81 | the short check fires exactly when the trimmed utterance has at most three characters |
| ConversationAnalyzer.ShortResponseLength | main.py:78 | every listed acknowledgement is at most three characters long |
| ConversationAnalyzer.CheckRudeLanguage | main.py:84-89 | fires exactly when some rude phrase occurs anywhere, answering the fixed message |
| ConversationAnalyzer.CheckCommandTone | main.py:92-97 | fires exactly when the untrimmed utterance ends with a listed imperative ending |
| ConversationAnalyzer.RuleCheck | main.py:197-204 | silent exactly when all four checks are silent; otherwise answers one of the four canned messages |
| ConversationAnalyzer.InappropriateWins | main.py:197-198 | a block-listed word wins over every other check |
| ConversationAnalyzer.RudeBeatsCommand | main.py:197-202 | past the first two checks a rude phrase gets the rude-language message, even when the utterance also ends like a command |
| ConversationAnalyzer.CommandOnly | main.py:197-204 | an utterance that passes the first three checks and ends with an imperative ending gets the command-tone message |
| ConversationAnalyzer.ShortUtteranceGetsShortMessage | main.py:197-200 | a trimmed utterance of at most three characters without a block-listed word gets the short-response message |
| ConversationAnalyzer.NoRuleFires | main.py:197-204 | the chain is silent iff no block-listed word, trimmed length over three, no rude phrase and no imperative ending |
| ConversationAnalyzer.CommandToneSeesUntrimmedEnd | main.py:95 | one trailing whitespace character hides every imperative ending from the command check |
| EmotionDetector.Unquoted | main.py:117 | no double or single quote is left |
| EmotionDetector.CleanLabel | main.py:114-117 | the cleaned answer has no leading or trailing whitespace |
| EmotionDetector.NormaliseEmotion | main.py:114-130 | the label is always one of the ten; a failed call or an answer that does not clean to a label gives 中立; an answer that cleans to a label gives that label, and only then is the result anything other than 中立 |
| EmotionDetector.Detect | main.py:101-130 | detection always returns one of the ten labels |
| EmotionDetector.LabelsAreBare | main.py:120 | no label is empty, starts or ends with whitespace, or holds a quote |
| EmotionDetector.WrappedLabelIsKept | main.py:114-123 | a valid label wrapped in any mix of whitespace and quotes is reported as itself |
| EmotionDetector.CleanWrappedWord | main.py:114-117 | the clean-up of a quote-free word wrapped in whitespace and quotes gives the word |
| EmotionDetector.UnknownAnswerIsNeutral | main.py:122-130 | an answer that does not clean to a label, or a failed call, is reported as 中立 |
| Messages.Line | main.py:140-143 | a message renders to a non-empty line exactly when it is a user or bot message |
| Messages.Chat | main.py:228-229 | the kept messages are user or bot messages, no more than the history holds |
| Messages.UserMessages | main.py:544 | the filtered list holds only user messages |
| Messages.RenderTranscript | main.py:401-408 | the `+=` loop builds exactly the transcript of the history |
| Messages.TranscriptAppend | main.py:138-143 | each message contributes its own line: the transcript of two histories in turn is their transcripts in turn |
| Messages.TranscriptOfChat | main.py:236-240 | dropping voice and other messages first leaves the transcript unchanged |
| Messages.AppendRound | main.py:636-640 | appending user, bot, voice keeps a history in whole rounds |
| Messages.RoundAddsOneUser | main.py:636-640 | one round adds exactly the utterance to the user messages |
| Messages.UserCountOfRounds | main.py:636-640 | a stored history holds one user message per round |
| MioBot.HistoryWindow | main.py:139 | the window is the suffix of the last min(5, n) messages |
| MioBot.StripNameLabel | main.py:179-180 | removing the name label never lengthens the answer, and a trimmed answer stays trimmed |
| MioBot.FinishReply | main.py:176-185 | a failed call gives the filler reply; an answer is never lengthened; every reply has no outer whitespace |
| MioBot.GenerateResponse | main.py:134-185 | the reply of the windowed transcript, post-processed, or the filler |
| MioBot.OlderTurnsIgnored | main.py:139 | messages before the last five have no influence on the reply |
| MioBot.VoiceFillsWindow | main.py:139-143 | five trailing voice messages leave the reply prompt with no history at all |
| MioBot.OneNameLabelRemoved | main.py:176-180 | for any leading whitespace and any body, an answer of the form whitespace, name label (either colon form), body comes back as the trimmed body |
| MioBot.UnlabelledAnswerTrimmed | main.py:176-182 | an answer without a name label is only trimmed |
| MioBot.ReplyIsTrimmed | main.py:176-185 | every reply is already trimmed |
| MioBot.Reply | main.py:134-185 | the filler when the call fails; every reply has no outer whitespace |
| VoiceFeedback.ExtractRecentConversation | main.py:214-242 | the backward walk gives the trimmed transcript of the chat messages after the (turns+1)-th most recent user message, in chronological order; an empty history gives "" |
| VoiceFeedback.WindowUsers | main.py:223-227 | walking back from any position, the window stops right after the (turns+1)-th user message met, holding exactly `turns` user messages, or else reaches the start of the history with at most `turns` of them |
| VoiceFeedback.RecentSuffixUsers | main.py:223-227 | the window holds at most `turns` user messages, and it is the whole history unless it stops right after a user message with exactly `turns` user messages inside |
| VoiceFeedback.RecentWindowContents | main.py:228-240 | the rendered window has only user and bot lines, at most `turns` of them from the user |
| VoiceFeedback.CapFeedback | main.py:324-331 | up to 400 characters are unchanged; over 400 with at least four sections the result is the first four sections joined by the break, a prefix of the answer that splits back into exactly those four sections; over 400 with fewer sections it is the first 397 characters plus "...", exactly 400 long; never longer than the answer |
| Strings.JoinSplitPrefix | main.py:326-329 | joining the first k pieces of a split gives a prefix of the split string |
| Strings.SplitJoinTake | main.py:326-329 | splitting the join of the first k pieces gives back exactly those k pieces |
| VoiceFeedback.FourSectionsKeptWhole | main.py:326-329 | an answer of exactly four sections passes unchanged, however long |
| VoiceFeedback.AiFeedback | main.py:319-336 | a failed call gives ""; otherwise the cap applied to the trimmed answer, so never longer than it |
| VoiceFeedback.GenerateAiFeedback | main.py:245-336 | the step-by-step reassignment of `result` gives exactly AiFeedback: the capped trimmed answer, or "" on failure |
| VoiceFeedback.RecentConversation | main.py:214-242 | the recent window is rendered with no outer whitespace |
| VoiceFeedback.Feedback | main.py:189-211 | a firing rule gives its message; otherwise "" when the call fails and the capped trimmed answer when it succeeds |
| VoiceFeedback.Generate | main.py:189-211 | a firing rule's message is returned as is; otherwise the provider's capped answer on the recent window |
| VoiceFeedback.RuleHitIgnoresProvider | main.py:196-204 | when a rule fires the provider cannot influence the feedback |
| MioImpression.FullConversation | main.py:401-409 | the closing transcript has no outer whitespace |
| MioImpression.BuildFullConversation | main.py:401-409 | the loop builds the trimmed customer/Mio transcript |
| MioImpression.FullConversationOfChat | main.py:404-408 | voice lines never reach the closing prompt |
| MioImpression.WordHits | main.py:551-553 | the number of listed words found is at most the number of words |
| MioImpression.PositiveHits | main.py:549-554 | at most one hit per listed word per user message |
| MioImpression.PositiveHitsAppend | main.py:549-554 | hits add up across two histories in turn |
| MioImpression.UserLengthAppend | main.py:602 | the total length of user messages adds up across two histories in turn |
| MioImpression.EnjoymentAfter | main.py:551-554 | enjoyment stays in [70, 100], is 70 exactly when nothing was found, and is 100 after six hits |
| MioImpression.EmotionScores | main.py:537-556 | the four keys in fixed order; enjoyment in [70, 100]; comfort 75; interest 65; closeness 75 iff more than 10 user messages, else 60 |
| MioImpression.CalculateEmotionScores | main.py:535-556 | the nested loop of capped +5 updates gives exactly those scores |
| MioImpression.EnjoymentBump | main.py:554 | one more capped +5 is one more hit |
| MioImpression.EnjoymentNeverFalls | main.py:545-554 | enjoyment never falls as messages are added |
| MioImpression.MomentTags | main.py:565-571 | a message gives at most three tags, only a user message gives any, all from the three tags |
| MioImpression.AllMoments | main.py:561-571 | the scan yields only the three tags |
| MioImpression.MemorableMoments | main.py:573 | at most three moments, a prefix of the scan, and the whole scan when shorter |
| MioImpression.ExtractMemorableMoments | main.py:559-573 | the append loop and the cut give exactly those moments |
| MioImpression.MomentsFromUsersOnly | main.py:564-565 | only user messages contribute moments |
| MioImpression.MomentsSettled | main.py:573 | once three moments are found, later messages change nothing |
| MioImpression.ThankfulExclamation | main.py:566-571 | "ありがとう、楽しかったです！" is passionate and kind but not long |
| MioImpression.ThankfulRoundMoments | main.py:561-573 | a session of that one exchange reports exactly the passionate and the kind moment |
| MioImpression.TruncDiv | main.py:588 | division truncating toward zero, as Python's `int()` of the quotient |
| MioImpression.EmotionAdjustment | main.py:585-589 | (sum - 65n)/2n truncated toward zero, and 0 for an empty dict |
| MioImpression.ComputedAdjustment | main.py:585-589 | with the computed scores the adjustment is between 1 and 6 |
| MioImpression.WantToTalkAgain | main.py:582-609 | the result is in [10, 95], equal to the raw score inside that range and clamped outside it |
| MioImpression.CalculateWantToTalkAgain | main.py:576-609 | the step-by-step updates give exactly that score |
| MioImpression.EmptyConversationScore | main.py:582-609 | an empty history scores 31, which is the medium tier |
| MioImpression.PipelineNeverLow | main.py:582-609 | every computed score is at least 31, so the low tier is never chosen |
| MioImpression.TierOf | main.py:439-444 | low iff the score is at most 30, high iff above 70 |
| MioImpression.FallbackPool | main.py:419-435 | each tier has three non-empty canned remarks |
| MioImpression.ImpressionText | main.py:412-532 | never empty; the trimmed answer when non-blank; the picked remark of the score's tier when the call fails or the answer is blank |
| MioImpression.FinalImpression | main.py:340-398 | never fails: an unknown id gets the fixed fallback; the score is in [10, 95], at most three moments, non-empty text |
| MioImpression.GenerateFinalImpression | main.py:340-384 | the sequence of helper calls gives exactly that impression |
| Sessions.Respond | main.py:631-646 | one detected label from the set, and the rule message as feedback whenever a rule fires |
| Sessions.Round | main.py:636-640 | three entries: the utterance as user message, then bot, then voice |
| Sessions.SessionStore.constructor | main.py:63 | the store starts empty |
| Sessions.SessionStore.CreateSession | main.py:616-623 | a fresh id gets an empty history, nothing else changes |
| Sessions.SessionStore.SendMessage | main.py:625-646 | an unknown id is refused with nothing changed; otherwise the response is computed from the client history and exactly that round is appended to that session alone, keeping every history in whole rounds |
| Sessions.SessionStore.EndConversation | main.py:648-672 | an unknown id is refused; otherwise the final impression of the stored history |
| Sessions.StoredUserTurns | main.py:636-640 | a stored history holds one user message per exchange |

## Left out

- HTTP routing, the root endpoint, CORS, environment loading, logging with `print`, and the server start-up. They are transport and configuration.
- The prompt texts. Only the variable parts of each prompt are modelled, as the `Prompt` datatype.
- The provider call itself. It is the `Completion` parameter, and equal prompts get equal answers within one model.
- `random.choice` among a tier's fallback remarks. It is the `Pick` parameter, 0 to 2.
- `uuid4`. `CreateSession` takes the fresh id as an argument, with the precondition that it is unused.
- Timestamps and `created_at`. They are not modelled.
- Floating point in the average. The model divides exactly and truncates toward zero. Binary rounding cannot change that result, because a non-integral quotient lies at least 1/(2n) from any integer.
- Strings.Split: the contract does not state that no piece contains the separator. What is proved is the join round trip (`JoinSplit`) and the re-split of the first pieces (`SplitJoinTake`), which is what the cap relies on.
- MioImpression.FinalImpression: the fallback covers an unknown id only. No other exception can arise in the modelled code.
- VoiceFeedback.Generate: the outer handler that returns "" on any exception is not modelled. In the source a missing history is handled before it, and the model treats a missing history as the empty one.
- Roles other than user, bot and voice are kept as `OtherRole`. They behave like voice messages everywhere.
- Concurrent requests to the same session. The source applies no locking.
- The React frontend, `main_simple.py` and `app.py`.
