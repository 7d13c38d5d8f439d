/** Conversation turns, their rendering into prompt transcripts, and the
    boundary to the generative-language provider. */
module Messages {
  import opened Strings

  /** A message's role is a free string in the request schema; the pipeline
      only distinguishes "user", "bot" and "voice". */
  datatype Role = User | Bot | Voice | OtherRole(name: string)

  /** One turn of a conversation (its timestamp is not modelled). */
  datatype Message = Message(role: Role, content: string)

  /** The label the character's lines carry in every transcript. */
  const MioTag: string := "みお: "
  /** The label of the user's lines in the reply prompt and the closing-remark prompt. */
  const CustomerTag: string := "お客様: "
  /** The label of the user's lines in the coaching prompt. */
  const YouTag: string := "あなた: "

  predicate IsChat(m: Message) {
    m.role == User || m.role == Bot
  }

  /** The transcript line of one message: user and bot lines only. */
  function Line(m: Message, userTag: string): (line: string)
    ensures line != [] <==> IsChat(m)
  {
    match m.role
    case User => userTag + m.content + "\n"
    case Bot => MioTag + m.content + "\n"
    case _ => ""
  }

  /** The lines of `h` in order, as the `+=` loops over a history build them. */
  function Transcript(h: seq<Message>, userTag: string): string {
    if h == [] then "" else Transcript(h[..|h| - 1], userTag) + Line(h[|h| - 1], userTag)
  }

  /** The user and bot messages of `h`, in order. */
  function Chat(h: seq<Message>): (c: seq<Message>)
    ensures |c| <= |h|
    ensures forall i :: 0 <= i < |c| ==> IsChat(c[i])
  {
    if h == [] then []
    else Chat(h[..|h| - 1]) + (if IsChat(h[|h| - 1]) then [h[|h| - 1]] else [])
  }

  /** `[msg for msg in history if msg.role == "user"]` */
  function UserMessages(h: seq<Message>): (u: seq<Message>)
    ensures |u| <= |h|
    ensures forall i :: 0 <= i < |u| ==> u[i].role == User
  {
    if h == [] then []
    else UserMessages(h[..|h| - 1]) + (if h[|h| - 1].role == User then [h[|h| - 1]] else [])
  }

  /** Builds a transcript line by line, as MioBot.generate_response,
      VoiceFeedback._extract_recent_conversation and
      MioImpression._build_full_conversation each do before any strip. */
  method RenderTranscript(h: seq<Message>, userTag: string) returns (text: string)
    ensures text == Transcript(h, userTag)
  {
    text := "";
    for i := 0 to |h|
      invariant text == Transcript(h[..i], userTag)
    {
      assert h[..i + 1][..i] == h[..i];
      match h[i].role
      case User =>
        var line := userTag + h[i].content + "\n";
        text := text + line;
      case Bot =>
        var line := MioTag + h[i].content + "\n";
        text := text + line;
      case _ =>
    }
    assert h[..|h|] == h;
  }

  /** Only user and bot messages show in a transcript: dropping the others
      first changes nothing. */
  /** Each message contributes its own line: the transcript of two
      histories in turn is their two transcripts in turn. */
  lemma {:induction false} TranscriptAppend(a: seq<Message>, b: seq<Message>, userTag: string)
    ensures Transcript(a + b, userTag) == Transcript(a, userTag) + Transcript(b, userTag)
    decreases |b|
  {
    if b == [] {
      assert a + b == a;
    } else {
      var init, m := b[..|b| - 1], b[|b| - 1];
      assert b == init + [m];
      assert a + b == (a + init) + [m];
      TranscriptAppend(a, init, userTag);
      TranscriptLast(a + init, m, userTag);
      TranscriptLast(init, m, userTag);
      ConcatAssociative(Transcript(a, userTag), Transcript(init, userTag), Line(m, userTag));
    }
  }

  lemma TranscriptLast(init: seq<Message>, m: Message, userTag: string)
    ensures Transcript(init + [m], userTag) == Transcript(init, userTag) + Line(m, userTag)
  {
    assert (init + [m])[..|init|] == init;
  }

  lemma {:induction false} TranscriptOfChat(h: seq<Message>, userTag: string)
    ensures Transcript(Chat(h), userTag) == Transcript(h, userTag)
  {
    if h != [] {
      var init, last := h[..|h| - 1], h[|h| - 1];
      TranscriptOfChat(init, userTag);
      var c := Chat(init);
      if IsChat(last) {
        var c' := c + [last];
        assert Chat(h) == c';
        assert c'[..|c'| - 1] == c && c'[|c'| - 1] == last;
        assert Transcript(c', userTag) == Transcript(c, userTag) + Line(last, userTag);
      } else {
        assert Chat(h) == c;
        assert Line(last, userTag) == [];
        assert Transcript(h, userTag) == Transcript(init, userTag) + [];
      }
    }
  }

  /** Role of the `i`-th entry of a session history, which the store fills
      in rounds of three: user, bot, voice. */
  function RoundRole(i: nat): Role {
    if i % 3 == 0 then User else if i % 3 == 1 then Bot else Voice
  }

  /** A stored history: whole rounds of user, bot, voice. */
  predicate WellFormedHistory(h: seq<Message>) {
    |h| % 3 == 0 && forall i :: 0 <= i < |h| ==> h[i].role == RoundRole(i)
  }

  /** One more round keeps a history well formed. */
  lemma AppendRound(h: seq<Message>, u: string, b: string, v: string)
    requires WellFormedHistory(h)
    ensures WellFormedHistory(h + [Message(User, u), Message(Bot, b), Message(Voice, v)])
  {
    var h' := h + [Message(User, u), Message(Bot, b), Message(Voice, v)];
    forall i | |h| <= i < |h'|
      ensures h'[i].role == RoundRole(i)
    {
      assert i % 3 == i - |h|;
    }
  }

  /** Appending a round adds exactly one user message, the utterance, after
      the earlier ones. */
  lemma RoundAddsOneUser(history: seq<Message>, userMessage: string, botResponse: string, voiceFeedback: string)
    ensures UserMessages(history + [Message(User, userMessage), Message(Bot, botResponse), Message(Voice, voiceFeedback)])
      == UserMessages(history) + [Message(User, userMessage)]
  {
    var u, b, v := Message(User, userMessage), Message(Bot, botResponse), Message(Voice, voiceFeedback);
    var h := history + [u, b, v];
    var h2 := history + [u, b];
    var h1 := history + [u];
    UserMessagesStep(h, h2);
    UserMessagesStep(h2, h1);
    UserMessagesStep(h1, history);
  }

  lemma UserMessagesStep(h: seq<Message>, init: seq<Message>)
    requires |h| == |init| + 1 && h[..|init|] == init
    ensures UserMessages(h) == UserMessages(init) + (if h[|init|].role == User then [h[|init|]] else [])
  {
    assert h[..|h| - 1] == init;
  }

  /** A well-formed history holds one user message per round. */
  lemma {:induction false} UserCountOfRounds(h: seq<Message>)
    requires WellFormedHistory(h)
    ensures |UserMessages(h)| == |h| / 3
    decreases |h|
  {
    if h != [] {
      var init := h[..|h| - 3];
      LastRound(h);
      UserCountOfRounds(init);
      RoundUsers(h);
    }
  }

  /** A non-empty well-formed history ends with a whole round after a
      well-formed one. */
  lemma LastRound(h: seq<Message>)
    requires WellFormedHistory(h) && h != []
    ensures |h| >= 3 && WellFormedHistory(h[..|h| - 3])
    ensures h[|h| - 3].role == User && h[|h| - 2].role == Bot && h[|h| - 1].role == Voice
  {
    var n := |h|;
    assert (n - 1) % 3 == 2 && (n - 2) % 3 == 1 && (n - 3) % 3 == 0;
    assert h[n - 3].role == RoundRole(n - 3);
    assert h[n - 2].role == RoundRole(n - 2);
    assert h[n - 1].role == RoundRole(n - 1);
    forall i | 0 <= i < n - 3
      ensures h[..n - 3][i].role == RoundRole(i)
    {
      assert h[..n - 3][i] == h[i];
    }
  }

  /** The last round adds its user message and nothing else. */
  lemma RoundUsers(h: seq<Message>)
    requires |h| >= 3
    requires h[|h| - 3].role == User && h[|h| - 2].role == Bot && h[|h| - 1].role == Voice
    ensures UserMessages(h) == UserMessages(h[..|h| - 3]) + [h[|h| - 3]]
  {
    var n := |h|;
    assert h[..n - 2][..n - 3] == h[..n - 3];
    assert h[..n - 1][..n - 2] == h[..n - 2];
    UserMessagesStep(h[..n - 2], h[..n - 3]);
    UserMessagesStep(h[..n - 1], h[..n - 2]);
    UserMessagesStep(h, h[..n - 1]);
  }
}

/** The generative-language provider: one completion call per prompt, which
    answers with text or fails. Only the variable parts of each prompt
    template are modelled; the fixed instruction text is not. */
module Provider {

  import opened Strings

  /** Tone tier of the closing remark, chosen from the want-to-talk-again score. */
  datatype Tier = Low | Medium | High

  datatype Prompt =
    | EmotionPrompt(userMessage: string)
    | ReplyPrompt(historyText: string, userMessage: string)
    | FeedbackPrompt(recentConversation: string, userMessage: string, emotion: string)
    | ImpressionPrompt(conversation: string, tier: Tier)

  /** `model.generate_content(prompt).text`, with `None` for every failure
      (no key configured, network or quota error, no text in the response). */
  type Completion = Prompt -> Option<string>
}
