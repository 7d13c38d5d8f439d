/** VoiceFeedback: the coach's comment on one utterance. The rule chain
    answers first; only when it stays silent is the provider asked, with the
    last few exchanges as context, and its answer is capped in length. */
module VoiceFeedback {
  import opened Strings
  import opened Messages
  import opened Provider
  import opened ConversationAnalyzer

  /** User turns of context given to the coaching prompt. */
  const RecentTurns: nat := 3
  /** Longest answer kept as it is. */
  const FeedbackLimit: nat := 400
  /** Characters kept before the ellipsis when the answer cannot be cut at
      section boundaries. */
  const EllipsisCut: nat := 397
  const Ellipsis: string := "..."
  const SectionBreak: string := "\n\n"
  const SectionsKept: nat := 4

  // ---------------------------------------------------------------------
  // Recent-window extraction

  /** Where the recent window of `h[..j]` starts: walking back from `j`,
      the position just after the (turns+1)-th user message met, or the
      start of the history when there are not that many. */
  function WindowStart(h: seq<Message>, j: nat, turns: nat): (start: nat)
    requires j <= |h|
    ensures start <= j
    decreases j
  {
    if j == 0 then 0
    else if h[j - 1].role == User then
      if turns == 0 then j else WindowStart(h, j - 1, turns - 1)
    else WindowStart(h, j - 1, turns)
  }

  /** The messages from the end of `h` back to, and not including, the
      (turns+1)-th most recent user message. */
  function RecentSuffix(h: seq<Message>, turns: nat): seq<Message> {
    h[WindowStart(h, |h|, turns)..]
  }

  /** The user and bot lines of the recent window, in chronological order. */
  function RecentConversation(h: seq<Message>, turns: nat): (text: string)
    ensures text == [] || (!IsSpace(text[0]) && !IsSpace(text[|text| - 1]))
  {
    Strip(Transcript(Chat(RecentSuffix(h, turns)), YouTag))
  }

  function Reversed(s: seq<Message>): (r: seq<Message>)
    ensures |r| == |s|
  {
    if s == [] then [] else Reversed(s[1..]) + [s[0]]
  }

  /** `VoiceFeedback._extract_recent_conversation`: walks the history from
      the newest message, counting user messages, stops before the
      (turns+1)-th one, keeps user and bot messages, restores their order and
      renders them. */
  method ExtractRecentConversation(history: seq<Message>, turns: nat) returns (text: string)
    ensures text == RecentConversation(history, turns)
    ensures history == [] ==> text == ""
  {
    if history == [] {
      assert RecentSuffix(history, turns) == [];
      assert Transcript(Chat([]), YouTag) == "";
      return "";
    }
    var recent: seq<Message> := [];
    var userTurns := 0;
    var j := |history|;
    while j > 0
      invariant 0 <= j <= |history|
      invariant userTurns <= turns
      invariant WindowStart(history, |history|, turns) == WindowStart(history, j, turns - userTurns)
      invariant recent == Reversed(Chat(history[j..]))
    {
      var msg := history[j - 1];
      WindowStep(history, j, turns - userTurns);
      if msg.role == User {
        userTurns := userTurns + 1;
        if userTurns > turns {
          assert WindowStart(history, |history|, turns) == j;
          break;
        }
      }
      ReversedChatStep(history, j);
      if msg.role == User || msg.role == Bot {
        recent := recent + [msg];
      }
      j := j - 1;
    }
    // back to chronological order
    WindowInOrder(history, turns, j, recent);
    recent := Reversed(recent);
    text := RenderTranscript(recent, YouTag);
    WindowRendered(history, turns, recent, text);
    text := Strip(text);
  }

  /** One step of the backward walk: the message before `j` either closes
      the window or is inside it. */
  lemma WindowStep(h: seq<Message>, j: nat, turns: nat)
    requires 0 < j <= |h|
    ensures WindowStart(h, j, turns) ==
      if h[j - 1].role != User then WindowStart(h, j - 1, turns)
      else if turns == 0 then j
      else WindowStart(h, j - 1, turns - 1)
  {
  }

  /** Once the walk has stopped at `j`, reversing what it kept gives the
      window's user and bot messages in chronological order. */
  lemma WindowInOrder(history: seq<Message>, turns: nat, j: nat, recent: seq<Message>)
    requires j <= |history| && WindowStart(history, |history|, turns) == j
    requires recent == Reversed(Chat(history[j..]))
    ensures Reversed(recent) == Chat(RecentSuffix(history, turns))
  {
    ReversedTwice(Chat(history[j..]));
  }

  /** Rendering the walk's result and trimming it is the recent
      conversation. */
  lemma WindowRendered(history: seq<Message>, turns: nat, recent: seq<Message>, text: string)
    requires recent == Chat(RecentSuffix(history, turns))
    requires text == Transcript(recent, YouTag)
    ensures Strip(text) == RecentConversation(history, turns)
  {
  }

  lemma ReversedChatStep(history: seq<Message>, j: nat)
    requires 0 < j <= |history|
    ensures var msg := history[j - 1];
      Reversed(Chat(history[j - 1..])) ==
        Reversed(Chat(history[j..])) + (if IsChat(msg) then [msg] else [])
  {
    var msg := history[j - 1];
    assert history[j - 1..] == [msg] + history[j..];
    ChatAppend([msg], history[j..]);
    assert [msg][..0] == [];
    ReversedAppend(Chat([msg]), Chat(history[j..]));
    if IsChat(msg) {
      assert Reversed([msg]) == [msg];
    }
  }

  // ---------------------------------------------------------------------
  // Length cap

  /** The cap `_generate_ai_feedback` puts on the provider's trimmed
      answer. An answer is never lengthened; it is either cut back to a
      prefix of itself at a section boundary, or, when it has fewer than four
      sections, to exactly 400 characters ending in the ellipsis. */
  function CapFeedback(result: string): (r: string)
    ensures |result| <= FeedbackLimit ==> r == result
    ensures |r| <= |result|
    ensures StartsWith(result, r) || (|r| == FeedbackLimit && r == result[..EllipsisCut] + Ellipsis)
    ensures |result| > FeedbackLimit && |Split(result, SectionBreak)| < SectionsKept ==> |r| == FeedbackLimit
    ensures |result| > FeedbackLimit && |Split(result, SectionBreak)| < SectionsKept ==> r == result[..EllipsisCut] + Ellipsis
    ensures |result| > FeedbackLimit && |Split(result, SectionBreak)| >= SectionsKept ==>
              r == Join(Split(result, SectionBreak)[..SectionsKept], SectionBreak)
    ensures |result| > FeedbackLimit && |Split(result, SectionBreak)| >= SectionsKept ==>
              StartsWith(result, r) && Split(r, SectionBreak) == Split(result, SectionBreak)[..SectionsKept]
  {
    if |result| > FeedbackLimit then
      var sections := Split(result, SectionBreak);
      if |sections| >= SectionsKept then
        JoinSplitPrefix(result, SectionBreak, SectionsKept);
        SplitJoinTake(result, SectionBreak, SectionsKept);
        Join(sections[..SectionsKept], SectionBreak)
      else
        result[..EllipsisCut] + Ellipsis
    else
      result
  }

  /** What becomes of the provider's answer; a failed call gives `""`,
      which callers read as "feedback unavailable". */
  function AiFeedback(answer: Option<string>): (feedback: string)
    ensures answer.None? ==> feedback == ""
    ensures answer.Some? ==> |feedback| <= |Strip(answer.value)|
    ensures answer.Some? ==> feedback == CapFeedback(Strip(answer.value))
  {
    match answer
    case None => ""
    case Some(text) => CapFeedback(Strip(text))
  }

  /** The feedback `VoiceFeedback.generate` returns. */
  function Feedback(userMessage: string, emotion: string, history: seq<Message>, complete: Completion): (feedback: string)
    ensures RuleCheck(userMessage).Some? ==> feedback == RuleCheck(userMessage).value
    ensures var answer := complete(FeedbackPrompt(RecentConversation(history, RecentTurns), userMessage, emotion));
      RuleCheck(userMessage).None? ==>
        (answer.None? ==> feedback == "") && (answer.Some? ==> feedback == CapFeedback(Strip(answer.value)))
  {
    match RuleCheck(userMessage)
    case Some(canned) => canned
    case None =>
      AiFeedback(complete(FeedbackPrompt(RecentConversation(history, RecentTurns), userMessage, emotion)))
  }

  /** `VoiceFeedback.generate`: the recent window is built first, then the
      four checks run in order; the provider is asked only when all stay
      silent. */
  method Generate(userMessage: string, emotion: string, history: seq<Message>, complete: Completion)
    returns (feedback: string)
    ensures feedback == Feedback(userMessage, emotion, history, complete)
    ensures RuleCheck(userMessage).Some? ==> feedback == RuleCheck(userMessage).value
  {
    var recent := ExtractRecentConversation(history, RecentTurns);
    var rule := CheckInappropriateContent(userMessage);
    if rule.Some? { return rule.value; }
    rule := CheckShortResponse(userMessage);
    if rule.Some? { return rule.value; }
    rule := CheckRudeLanguage(userMessage);
    if rule.Some? { return rule.value; }
    rule := CheckCommandTone(userMessage);
    if rule.Some? { return rule.value; }
    feedback := GenerateAiFeedback(userMessage, recent, emotion, complete);
  }

  /** `VoiceFeedback._generate_ai_feedback` */
  method GenerateAiFeedback(userMessage: string, recentConversation: string, emotion: string, complete: Completion)
    returns (feedback: string)
    ensures feedback == AiFeedback(complete(FeedbackPrompt(recentConversation, userMessage, emotion)))
  {
    match complete(FeedbackPrompt(recentConversation, userMessage, emotion))
    case None =>
      feedback := "";
    case Some(text) =>
      var result := Strip(text);
      if |result| > FeedbackLimit {
        var sections := Split(result, SectionBreak);
        if |sections| >= SectionsKept {
          result := Join(sections[..SectionsKept], SectionBreak);
        } else {
          result := result[..EllipsisCut] + Ellipsis;
        }
      }
      feedback := result;
  }

  // ---------------------------------------------------------------------
  // Lemmas

  lemma {:induction false} ChatAppend(a: seq<Message>, b: seq<Message>)
    ensures Chat(a + b) == Chat(a) + Chat(b)
    decreases |b|
  {
    if b == [] {
      assert a + b == a;
    } else {
      assert (a + b)[..|a + b| - 1] == a + b[..|b| - 1];
      ChatAppend(a, b[..|b| - 1]);
    }
  }

  lemma {:induction false} ReversedTwice(s: seq<Message>)
    ensures Reversed(Reversed(s)) == s
  {
    if s != [] {
      ReversedTwice(s[1..]);
      ReversedAppend(Reversed(s[1..]), [s[0]]);
      assert Reversed([s[0]]) == [s[0]];
      assert s == [s[0]] + s[1..];
    }
  }

  lemma {:induction false} ReversedAppend(a: seq<Message>, b: seq<Message>)
    ensures Reversed(a + b) == Reversed(b) + Reversed(a)
  {
    if a == [] {
      assert a + b == b;
    } else {
      assert (a + b)[1..] == a[1..] + b;
      ReversedAppend(a[1..], b);
    }
  }

  lemma {:induction false} UserMessagesOfChat(s: seq<Message>)
    ensures UserMessages(Chat(s)) == UserMessages(s)
  {
    if s != [] {
      var init, last := s[..|s| - 1], s[|s| - 1];
      UserMessagesOfChat(init);
      var c := Chat(init);
      if IsChat(last) {
        assert Chat(s) == c + [last];
        assert (c + [last])[..|c|] == c;
        assert UserMessages(c + [last]) == UserMessages(c) + (if last.role == User then [last] else []);
      } else {
        assert Chat(s) == c;
        assert last.role != User;
      }
    }
  }

  /** The window of `h[..j]` holds at most `turns` user messages, and it
      reaches back to the start of the history unless it stops right after
      a user message with exactly `turns` user messages inside. */
  lemma {:induction false} WindowUsers(h: seq<Message>, j: nat, turns: nat)
    requires j <= |h|
    ensures var start := WindowStart(h, j, turns);
      && |UserMessages(h[start..j])| <= turns
      && (start == 0 || (h[start - 1].role == User && |UserMessages(h[start..j])| == turns))
    decreases j
  {
    if j > 0 && !(h[j - 1].role == User && turns == 0) {
      var k := if h[j - 1].role == User then turns - 1 else turns;
      WindowUsers(h, j - 1, k);
      var start := WindowStart(h, j - 1, k);
      WindowStep(h, j, turns);
      assert WindowStart(h, j, turns) == start;
      UsersExtend(h, start, j);
    } else {
      if j > 0 {
        WindowStep(h, j, turns);
      }
      assert h[j..j] == [];
    }
  }

  /** Widening a slice by one message on the right counts that message if
      it is the user's. */
  lemma UsersExtend(h: seq<Message>, start: nat, j: nat)
    requires start < j <= |h|
    ensures |UserMessages(h[start..j])| ==
      |UserMessages(h[start..j - 1])| + (if h[j - 1].role == User then 1 else 0)
  {
    assert h[start..j][..j - 1 - start] == h[start..j - 1];
    UserMessagesStep(h[start..j], h[start..j - 1]);
  }

  /** The recent window holds at most `turns` user messages, and it is the
      whole history unless it stops right after the (turns+1)-th most recent
      user message, when it holds exactly `turns` of them. */
  lemma RecentSuffixUsers(h: seq<Message>, turns: nat)
    ensures |UserMessages(RecentSuffix(h, turns))| <= turns
    ensures var r := RecentSuffix(h, turns);
      r == h || (|r| < |h| && |UserMessages(r)| == turns && h[|h| - |r| - 1].role == User)
  {
    WindowUsers(h, |h|, turns);
    assert h[WindowStart(h, |h|, turns)..|h|] == RecentSuffix(h, turns);
    assert h[0..] == h;
  }

  /** The rendered window holds only user and bot messages, at most `turns`
      of them from the user. */
  lemma RecentWindowContents(h: seq<Message>, turns: nat)
    ensures forall i :: 0 <= i < |Chat(RecentSuffix(h, turns))| ==> IsChat(Chat(RecentSuffix(h, turns))[i])
    ensures |UserMessages(Chat(RecentSuffix(h, turns)))| <= turns
  {
    RecentSuffixUsers(h, turns);
    UserMessagesOfChat(RecentSuffix(h, turns));
  }

  /** The section-preserving cut does not bound the length: an answer of
      exactly four sections comes back unchanged however long it is. */
  lemma FourSectionsKeptWhole(s: string)
    requires |Split(s, SectionBreak)| == SectionsKept
    ensures CapFeedback(s) == s
  {
    JoinSplit(s, SectionBreak);
    assert Split(s, SectionBreak)[..SectionsKept] == Split(s, SectionBreak);
  }

  /** When a rule fires, the provider is never consulted: any two providers
      give the same feedback. */
  lemma RuleHitIgnoresProvider(userMessage: string, emotion: string, history: seq<Message>, c1: Completion, c2: Completion)
    requires RuleCheck(userMessage).Some?
    ensures Feedback(userMessage, emotion, history, c1) == Feedback(userMessage, emotion, history, c2)
  {
  }
}
