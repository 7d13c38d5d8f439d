/** MioImpression: the character's closing remark at the end of a session.
    Four scores are computed from the stored history, a handful of memorable
    moments are picked out, and a single want-to-talk-again score in
    [10, 95] chooses the tone of the remark and its canned fallback. */
module MioImpression {
  import opened Strings
  import opened Messages
  import opened Provider

  /** One entry of the emotion-score dict, in insertion order. */
  datatype Score = Score(name: string, value: int)

  // ---------------------------------------------------------------------
  // Full conversation

  /** The closing-remark prompt's transcript: user and bot lines of the whole
      stored history, trimmed. */
  function FullConversation(history: seq<Message>): (conversation: string)
    ensures conversation == [] || (!IsSpace(conversation[0]) && !IsSpace(conversation[|conversation| - 1]))
  {
    Strip(Transcript(history, CustomerTag))
  }

  /** `MioImpression._build_full_conversation` */
  method BuildFullConversation(history: seq<Message>) returns (conversation: string)
    ensures conversation == FullConversation(history)
  {
    conversation := RenderTranscript(history, CustomerTag);
    conversation := Strip(conversation);
  }

  // ---------------------------------------------------------------------
  // Emotion scores

  /** Enjoyment, comfort, interest and closeness. */
  const Enjoyment: string := "楽しさ"
  const Comfort: string := "安心感"
  const Interest: string := "興味深さ"
  const Closeness: string := "親密度"

  const PositiveWords: seq<string> := ["楽しい", "嬉しい", "ありがとう", "素敵", "いいね"]
  const EnjoymentStart: int := 70
  const EnjoymentStep: int := 5
  const EnjoymentCap: int := 100
  const ComfortScore: int := 75
  const InterestScore: int := 65
  const ClosenessStart: int := 60
  const ClosenessBonus: int := 15
  /** More user messages than this earn the closeness bonus. */
  const ClosenessTurns: nat := 10

  function Min(a: int, b: int): int {
    if a <= b then a else b
  }

  function Max(a: int, b: int): int {
    if a <= b then b else a
  }

  /** How many of `words` occur in `text`. */
  function WordHits(text: string, words: seq<string>): (n: nat)
    ensures n <= |words|
  {
    if words == [] then 0
    else WordHits(text, words[..|words| - 1]) + (if Contains(text, words[|words| - 1]) then 1 else 0)
  }

  /** The (user message, positive word it contains) pairs. */
  function PositiveHits(users: seq<Message>): (n: nat)
    ensures n <= |PositiveWords| * |users|
  {
    if users == [] then 0
    else PositiveHits(users[..|users| - 1]) + WordHits(users[|users| - 1].content, PositiveWords)
  }

  /** Enjoyment after `hits` bonuses of 5, each capped at 100. */
  function EnjoymentAfter(hits: nat): (v: int)
    ensures EnjoymentStart <= v <= EnjoymentCap
    ensures v == EnjoymentStart <==> hits == 0
    ensures hits >= 6 ==> v == EnjoymentCap
  {
    Min(EnjoymentStart + EnjoymentStep * hits, EnjoymentCap)
  }

  /** The scores `_calculate_emotion_scores` reports, keys in their fixed
      order. */
  function EmotionScores(history: seq<Message>): (scores: seq<Score>)
    ensures |scores| == 4
    ensures scores[0].name == Enjoyment && scores[1].name == Comfort
    ensures scores[2].name == Interest && scores[3].name == Closeness
    ensures EnjoymentStart <= scores[0].value <= EnjoymentCap
    ensures scores[1].value == ComfortScore && scores[2].value == InterestScore
    ensures scores[3].value == ClosenessStart + ClosenessBonus <==> |UserMessages(history)| > ClosenessTurns
    ensures scores[3].value == ClosenessStart <==> |UserMessages(history)| <= ClosenessTurns
  {
    var users := UserMessages(history);
    [ Score(Enjoyment, EnjoymentAfter(PositiveHits(users))),
      Score(Comfort, ComfortScore),
      Score(Interest, InterestScore),
      Score(Closeness, if |users| > ClosenessTurns then ClosenessStart + ClosenessBonus else ClosenessStart) ]
  }

  /** `MioImpression._calculate_emotion_scores`: starts from the base scores
      and updates the closeness and enjoyment slots in place. */
  method CalculateEmotionScores(history: seq<Message>) returns (scores: seq<Score>)
    ensures scores == EmotionScores(history)
  {
    scores := [Score(Enjoyment, EnjoymentStart), Score(Comfort, ComfortScore),
               Score(Interest, InterestScore), Score(Closeness, ClosenessStart)];
    var users := UserMessages(history);
    if |users| > ClosenessTurns {
      scores := scores[3 := Score(Closeness, scores[3].value + ClosenessBonus)];
    }
    ghost var hits := 0;
    for i := 0 to |users|
      invariant FixedSlots(scores, users)
      invariant hits == PositiveHits(users[..i])
      invariant scores[0] == Score(Enjoyment, EnjoymentAfter(hits))
    {
      var content := users[i].content;
      PositiveHitsStep(users, i);
      for k := 0 to |PositiveWords|
        invariant FixedSlots(scores, users)
        invariant hits == PositiveHits(users[..i]) + WordHits(content, PositiveWords[..k])
        invariant scores[0] == Score(Enjoyment, EnjoymentAfter(hits))
      {
        WordHitsStep(content, PositiveWords, k);
        if Contains(content, PositiveWords[k]) {
          EnjoymentBump(hits);
          scores := scores[0 := Score(Enjoyment, Min(scores[0].value + EnjoymentStep, EnjoymentCap))];
          hits := hits + 1;
        }
      }
    }
    assert users[..|users|] == users;
    SlotsMakeScores(scores, history);
  }

  /** Comfort, interest and closeness hold their final values. */
  predicate FixedSlots(scores: seq<Score>, users: seq<Message>) {
    && |scores| == 4
    && scores[1] == Score(Comfort, ComfortScore)
    && scores[2] == Score(Interest, InterestScore)
    && scores[3] == Score(Closeness, if |users| > ClosenessTurns then ClosenessStart + ClosenessBonus else ClosenessStart)
  }

  lemma SlotsMakeScores(scores: seq<Score>, history: seq<Message>)
    requires FixedSlots(scores, UserMessages(history))
    requires scores[0] == Score(Enjoyment, EnjoymentAfter(PositiveHits(UserMessages(history))))
    ensures scores == EmotionScores(history)
  {
  }

  /** Counting one more word of the list. */
  lemma WordHitsStep(text: string, words: seq<string>, k: nat)
    requires k < |words|
    ensures WordHits(text, words[..k + 1]) ==
      WordHits(text, words[..k]) + (if Contains(text, words[k]) then 1 else 0)
  {
    assert words[..k + 1][..k] == words[..k];
  }

  /** Counting the words of one more user message. */
  lemma PositiveHitsStep(users: seq<Message>, i: nat)
    requires i < |users|
    ensures PositiveHits(users[..i + 1]) ==
      PositiveHits(users[..i]) + WordHits(users[i].content, PositiveWords[..|PositiveWords|])
  {
    assert users[..i + 1][..i] == users[..i];
    assert PositiveWords[..|PositiveWords|] == PositiveWords;
  }

  /** One more capped bonus is one more hit. */
  lemma EnjoymentBump(hits: nat)
    ensures Min(EnjoymentAfter(hits) + EnjoymentStep, EnjoymentCap) == EnjoymentAfter(hits + 1)
  {
  }

  // ---------------------------------------------------------------------
  // Memorable moments

  /** "When you talked a lot", "when you spoke passionately", "when you said
      something kind". */
  const LongTag: string := "たくさん話してくれた時"
  const PassionTag: string := "熱く語ってくれた時"
  const KindTag: string := "優しい言葉をかけてくれた時"
  /** User messages longer than this are memorable. */
  const LongUtterance: nat := 50
  const KindWords: seq<string> := ["ありがとう", "嬉しい", "楽しい"]
  const MomentLimit: nat := 3

  predicate IsMomentTag(t: string) {
    t == LongTag || t == PassionTag || t == KindTag
  }

  /** The tags one message contributes, in the order they are tested. */
  function MomentTags(m: Message): (tags: seq<string>)
    ensures |tags| <= 3
    ensures m.role != User ==> tags == []
    ensures forall i :: 0 <= i < |tags| ==> IsMomentTag(tags[i])
  {
    if m.role != User then []
    else
      (if |m.content| > LongUtterance then [LongTag] else [])
      + (if Contains(m.content, "!") || Contains(m.content, "！") then [PassionTag] else [])
      + (if ContainsAny(m.content, KindWords) then [KindTag] else [])
  }

  /** Every tag of every message, in scan order, before truncation. */
  function AllMoments(history: seq<Message>): (moments: seq<string>)
    ensures forall i :: 0 <= i < |moments| ==> IsMomentTag(moments[i])
  {
    if history == [] then []
    else AllMoments(history[..|history| - 1]) + MomentTags(history[|history| - 1])
  }

  /** The moments reported: the longest prefix of the scan of at most three
      entries. */
  function MemorableMoments(history: seq<Message>): (moments: seq<string>)
    ensures |moments| <= MomentLimit && |moments| <= |AllMoments(history)|
    ensures moments == AllMoments(history)[..|moments|]
    ensures |moments| < MomentLimit ==> moments == AllMoments(history)
  {
    var all := AllMoments(history);
    if |all| <= MomentLimit then all else all[..MomentLimit]
  }

  /** `MioImpression._extract_memorable_moments` */
  method ExtractMemorableMoments(history: seq<Message>) returns (moments: seq<string>)
    ensures moments == MemorableMoments(history)
  {
    moments := [];
    for i := 0 to |history|
      invariant moments == AllMoments(history[..i])
    {
      var msg := history[i];
      AllMomentsStep(history, i);
      ghost var before := moments;
      if msg.role == User {
        ghost var a := if |msg.content| > LongUtterance then [LongTag] else [];
        ghost var b := if Contains(msg.content, "!") || Contains(msg.content, "！") then [PassionTag] else [];
        ghost var c := if ContainsAny(msg.content, KindWords) then [KindTag] else [];
        if |msg.content| > LongUtterance {
          moments := moments + [LongTag];
        }
        assert moments == before + a;
        if Contains(msg.content, "!") || Contains(msg.content, "！") {
          moments := moments + [PassionTag];
        }
        assert moments == before + a + b;
        if ContainsAny(msg.content, KindWords) {
          moments := moments + [KindTag];
        }
        assert moments == before + a + b + c;
        AppendThree(before, a, b, c);
      }
    }
    assert history[..|history|] == history;
    if |moments| > MomentLimit {
      moments := moments[..MomentLimit];
    }
  }

  lemma AllMomentsStep(history: seq<Message>, i: nat)
    requires i < |history|
    ensures AllMoments(history[..i + 1]) == AllMoments(history[..i]) + MomentTags(history[i])
  {
    assert history[..i + 1][..i] == history[..i];
  }

  lemma AppendThree(s: seq<string>, a: seq<string>, b: seq<string>, c: seq<string>)
    ensures s + a + b + c == s + (a + b + c)
  {
  }

  // ---------------------------------------------------------------------
  // Want-to-talk-again score

  const BaseScore: int := 50
  /** The average emotion score that moves the score neither way. */
  const NeutralEmotion: int := 65
  const MomentBonus: int := 8
  /** At least this many user messages: five turns completed. */
  const CompletedTurns: nat := 5
  const CompletedBonus: int := 5
  /** More user messages than this: a long conversation. */
  const LongTalkTurns: nat := 8
  const LongTalkBonus: int := 10
  /** Fewer user characters than this in total: terse answers only. */
  const TerseLength: nat := 50
  const TersePenalty: int := 20
  /** More user characters than this in total: substantial answers. */
  const RichLength: nat := 200
  const RichBonus: int := 10
  const MinScore: int := 10
  const MaxScore: int := 95

  /** Python's `int()` of an exact quotient: division truncating toward zero,
      where Dafny's own `/` rounds toward negative infinity for a negative
      dividend. */
  function TruncDiv(a: int, b: int): (q: int)
    requires b > 0
    ensures 0 <= a ==> 0 <= q * b <= a < q * b + b
    ensures a < 0 ==> q * b - b < a <= q * b <= 0
  {
    if a >= 0 then
      DivBounds(a, b);
      a / b
    else
      DivBounds(-a, b);
      var p := (-a) / b;
      assert (-p) * b == -(p * b);
      -p
  }

  lemma DivBounds(a: nat, b: int)
    requires b > 0
    ensures 0 <= (a / b) * b <= a < (a / b) * b + b
  {
    assert a == (a / b) * b + a % b;
  }

  function ScoreSum(scores: seq<Score>): int {
    if scores == [] then 0 else ScoreSum(scores[..|scores| - 1]) + scores[|scores| - 1].value
  }

  /** `int((avg - 65) * 0.5)` for a non-empty score dict, nothing for an
      empty one: (sum - 65n) / 2n truncated toward zero. */
  function EmotionAdjustment(scores: seq<Score>): (adjustment: int)
    ensures |scores| == 0 ==> adjustment == 0
    ensures |scores| > 0 && ScoreSum(scores) >= NeutralEmotion * |scores| ==>
      0 <= adjustment * (2 * |scores|) <= ScoreSum(scores) - NeutralEmotion * |scores|
        < adjustment * (2 * |scores|) + 2 * |scores|
    ensures |scores| > 0 && ScoreSum(scores) < NeutralEmotion * |scores| ==>
      adjustment * (2 * |scores|) - 2 * |scores| < ScoreSum(scores) - NeutralEmotion * |scores|
        <= adjustment * (2 * |scores|) <= 0
  {
    if |scores| == 0 then 0
    else TruncDiv(ScoreSum(scores) - NeutralEmotion * |scores|, 2 * |scores|)
  }

  /** Total length of the user messages' contents. */
  function UserLength(users: seq<Message>): nat {
    if users == [] then 0 else UserLength(users[..|users| - 1]) + |users[|users| - 1].content|
  }

  /** The score before the final clamp. */
  function RawScore(scores: seq<Score>, moments: seq<string>, history: seq<Message>): int {
    var users := UserMessages(history);
    var total := UserLength(users);
    BaseScore + EmotionAdjustment(scores) + MomentBonus * |moments|
    + (if |users| >= CompletedTurns then CompletedBonus else 0)
    + (if |users| > LongTalkTurns then LongTalkBonus else 0)
    + (if total < TerseLength then -TersePenalty else if total > RichLength then RichBonus else 0)
  }

  /** The score `_calculate_want_to_talk_again` returns: the raw score
      clamped into [10, 95]. */
  function WantToTalkAgain(scores: seq<Score>, moments: seq<string>, history: seq<Message>): (score: int)
    ensures MinScore <= score <= MaxScore
    ensures MinScore <= RawScore(scores, moments, history) <= MaxScore ==> score == RawScore(scores, moments, history)
    ensures RawScore(scores, moments, history) < MinScore ==> score == MinScore
    ensures RawScore(scores, moments, history) > MaxScore ==> score == MaxScore
  {
    Max(MinScore, Min(RawScore(scores, moments, history), MaxScore))
  }

  /** `MioImpression._calculate_want_to_talk_again`, adjusting a running
      score step by step. */
  method CalculateWantToTalkAgain(scores: seq<Score>, moments: seq<string>, history: seq<Message>)
    returns (score: int)
    ensures score == WantToTalkAgain(scores, moments, history)
  {
    var baseScore := BaseScore;
    if |scores| > 0 {
      var n := |scores|;
      var emotionAdjustment := TruncDiv(ScoreSum(scores) - NeutralEmotion * n, 2 * n);
      baseScore := baseScore + emotionAdjustment;
    }
    baseScore := baseScore + |moments| * MomentBonus;
    var users := UserMessages(history);
    if |users| >= CompletedTurns {
      baseScore := baseScore + CompletedBonus;
    }
    if |users| > LongTalkTurns {
      baseScore := baseScore + LongTalkBonus;
    }
    var totalLength := UserLength(users);
    if totalLength < TerseLength {
      baseScore := baseScore - TersePenalty;
    } else if totalLength > RichLength {
      baseScore := baseScore + RichBonus;
    }
    score := Max(MinScore, Min(baseScore, MaxScore));
  }

  // ---------------------------------------------------------------------
  // Closing remark

  const LowCeiling: int := 30
  const MediumCeiling: int := 70

  /** The tone tier a score selects, for both the prompt and the fallback. */
  function TierOf(score: int): (tier: Tier)
    ensures tier == Low <==> score <= LowCeiling
    ensures tier == High <==> score > MediumCeiling
  {
    if score <= LowCeiling then Low else if score <= MediumCeiling then Medium else High
  }

  /** The three canned remarks of each tier. */
  const LowRemarks: seq<string> := [
    "正直な話、今日はちょっとしんどかった...💦 会話が続かへんし、何話してええか分からんくて困ったわ。もうちょっと積極的に話してくれたら嬉しいんやけどなあ。",
    "うーん、今日はあんまり盛り上がらんかったなあ。一言二言で終わるし、私ばっかり喋ってる感じやった。次はもっと頑張って欲しいわ。",
    "会話が全然弾まへんかった...何か緊張してるんかな？もう少しリラックスして話してくれたら、きっともっと楽しくなると思うで。"]
  const MediumRemarks: seq<string> := [
    "今日はまあまあかな〜。話は聞いてくれるけど、もうちょっと私のことも聞いてくれたら嬉しかったかも。でも優しい人やったから、また話してみたいかな。",
    "悪くはなかったけど、会話のキャッチボールがもう少し上手になったら、もっと楽しくなりそうやで！でも真面目で誠実な感じが伝わってきたわ。",
    "普通って感じかな。緊張してるのは分かるけど、もう少し自然に話せるようになったら、きっともっと楽しい時間になるで〜。"]
  const HighRemarks: seq<string> := [
    "今日めっちゃ楽しかった〜！💕 話し方すごく優しくて安心できたわ。私の話もちゃんと聞いてくれるし、質問も上手やし、一緒におった時間があっという間やった！",
    "すごく良い時間やった〜✨ 会話のテンポも良いし、ちゃんと私のことを気にかけてくれるのが嬉しかったわ。絶対また話したいわ！",
    "最高やった！😊 こんなに楽しく話せる人に会えるなんて思わんかったわ。優しいし面白いし、ずっと一緒におりたい気分になったで〜。"]

  function FallbackPool(tier: Tier): (pool: seq<string>)
    ensures |pool| == 3
    ensures pool[0] != [] && pool[1] != [] && pool[2] != []
  {
    match tier
    case Low => LowRemarks
    case Medium => MediumRemarks
    case High => HighRemarks
  }

  /** The choice `random.choice` makes among a tier's three remarks. */
  type Pick = i: nat | i < 3

  /** `MioImpression._generate_impression_text`: the provider's trimmed
      answer, or the picked fallback of the score's tier when the call fails
      or the answer is blank. */
  function ImpressionText(conversation: string, score: int, pick: Pick, complete: Completion): (text: string)
    ensures text != []
    ensures var answer := complete(ImpressionPrompt(conversation, TierOf(score)));
      answer.None? || Strip(answer.value) == [] ==>
        text == FallbackPool(TierOf(score))[pick] && text in FallbackPool(TierOf(score))
    ensures var answer := complete(ImpressionPrompt(conversation, TierOf(score)));
      answer.Some? && Strip(answer.value) != [] ==> text == Strip(answer.value)
  {
    var fallback := FallbackPool(TierOf(score))[pick];
    match complete(ImpressionPrompt(conversation, TierOf(score)))
    case None => fallback
    case Some(answer) =>
      var trimmed := Strip(answer);
      if trimmed == [] then fallback else trimmed
  }

  // ---------------------------------------------------------------------
  // Final impression

  /** `MioImpressionResponse` */
  datatype ImpressionResult = ImpressionResult(
    impressionText: string,
    emotionScores: seq<Score>,
    memorableMoments: seq<string>,
    wantToTalkAgain: int)

  /** What an unknown session gets instead of an error. */
  const FallbackImpression: ImpressionResult := ImpressionResult(
    "今日はありがとうございました〜！エラーが発生しましたが、お疲れ様でした💦",
    [Score(Enjoyment, 50), Score(Comfort, 50)],
    ["会話練習お疲れ様でした"],
    50)

  /** The closing impression of session `sessionId`; it never fails. */
  function FinalImpression(sessions: map<string, seq<Message>>, sessionId: string, pick: Pick, complete: Completion)
    : (r: ImpressionResult)
    ensures sessionId !in sessions ==> r == FallbackImpression
    ensures MinScore <= r.wantToTalkAgain <= MaxScore
    ensures |r.memorableMoments| <= MomentLimit
    ensures r.impressionText != []
  {
    if sessionId !in sessions then FallbackImpression
    else
      var history := sessions[sessionId];
      var scores := EmotionScores(history);
      var moments := MemorableMoments(history);
      var score := WantToTalkAgain(scores, moments, history);
      ImpressionResult(ImpressionText(FullConversation(history), score, pick, complete), scores, moments, score)
  }

  /** `MioImpression.generate_final_impression` */
  method GenerateFinalImpression(sessions: map<string, seq<Message>>, sessionId: string, pick: Pick, complete: Completion)
    returns (r: ImpressionResult)
    ensures r == FinalImpression(sessions, sessionId, pick, complete)
  {
    if sessionId !in sessions {
      return FallbackImpression;
    }
    var history := sessions[sessionId];
    var conversation := BuildFullConversation(history);
    var scores := CalculateEmotionScores(history);
    var moments := ExtractMemorableMoments(history);
    var score := CalculateWantToTalkAgain(scores, moments, history);
    var text := ImpressionText(conversation, score, pick, complete);
    r := ImpressionResult(text, scores, moments, score);
  }

  // ---------------------------------------------------------------------
  // Lemmas

  /** Voice lines never reach the closing-remark prompt. */
  lemma FullConversationOfChat(history: seq<Message>)
    ensures FullConversation(Chat(history)) == FullConversation(history)
  {
    TranscriptOfChat(history, CustomerTag);
  }

  /** The total length is a sum over messages: it adds up across two
      histories in turn. */
  lemma {:induction false} UserLengthAppend(a: seq<Message>, b: seq<Message>)
    ensures UserLength(a + b) == UserLength(a) + UserLength(b)
    decreases |b|
  {
    if b == [] {
      assert a + b == a;
    } else {
      assert (a + b)[..|a + b| - 1] == a + b[..|b| - 1];
      UserLengthAppend(a, b[..|b| - 1]);
    }
  }

  lemma {:induction false} PositiveHitsAppend(a: seq<Message>, b: seq<Message>)
    ensures PositiveHits(a + b) == PositiveHits(a) + PositiveHits(b)
    decreases |b|
  {
    if b == [] {
      assert a + b == a;
    } else {
      assert (a + b)[..|a + b| - 1] == a + b[..|b| - 1];
      PositiveHitsAppend(a, b[..|b| - 1]);
    }
  }

  lemma {:induction false} UserMessagesAppend(a: seq<Message>, b: seq<Message>)
    ensures UserMessages(a + b) == UserMessages(a) + UserMessages(b)
    decreases |b|
  {
    if b == [] {
      assert a + b == a;
    } else {
      assert (a + b)[..|a + b| - 1] == a + b[..|b| - 1];
      UserMessagesAppend(a, b[..|b| - 1]);
    }
  }

  /** Enjoyment never falls as the conversation goes on. */
  lemma EnjoymentNeverFalls(history: seq<Message>, more: seq<Message>)
    ensures EmotionScores(history)[0].value <= EmotionScores(history + more)[0].value
  {
    UserMessagesAppend(history, more);
    PositiveHitsAppend(UserMessages(history), UserMessages(more));
  }

  /** Only user messages contribute moments. */
  lemma {:induction false} MomentsFromUsersOnly(history: seq<Message>)
    ensures AllMoments(history) == AllMoments(UserMessages(history))
  {
    if history != [] {
      var init, last := history[..|history| - 1], history[|history| - 1];
      MomentsFromUsersOnly(init);
      var u := UserMessages(init);
      if last.role == User {
        assert UserMessages(history) == u + [last];
        assert (u + [last])[..|u|] == u;
      } else {
        assert UserMessages(history) == u;
      }
    }
  }

  lemma {:induction false} AllMomentsAppend(a: seq<Message>, b: seq<Message>)
    ensures AllMoments(a + b) == AllMoments(a) + AllMoments(b)
    decreases |b|
  {
    if b == [] {
      assert a + b == a;
    } else {
      assert (a + b)[..|a + b| - 1] == a + b[..|b| - 1];
      AllMomentsAppend(a, b[..|b| - 1]);
    }
  }

  /** Once three moments have been found, later messages change nothing. */
  lemma MomentsSettled(history: seq<Message>, more: seq<Message>)
    requires |AllMoments(history)| >= MomentLimit
    ensures MemorableMoments(history + more) == MemorableMoments(history)
  {
    AllMomentsAppend(history, more);
    var all := AllMoments(history);
    var extended := all + AllMoments(more);
    assert AllMoments(history + more) == extended;
    assert extended[..MomentLimit] == all[..MomentLimit];
    assert MemorableMoments(history + more) == extended[..MomentLimit];
  }

  /** A thankful exclamation counts as both passionate and kind, and is too
      short to count as long. */
  lemma ThankfulExclamation()
    ensures MomentTags(Message(User, "ありがとう、楽しかったです！")) == [PassionTag, KindTag]
  {
    var s := "ありがとう、楽しかったです！";
    assert OccursAt(s, "！", 13);
    assert OccursAt(s, KindWords[0], 0);
  }

  /** A session whose one exchange is that thankful exclamation reports
      exactly the passionate and the kind moment: the bot and voice lines
      contribute nothing. */
  lemma ThankfulRoundMoments(botResponse: string, voiceFeedback: string)
    ensures MemorableMoments([Message(User, "ありがとう、楽しかったです！"), Message(Bot, botResponse),
                              Message(Voice, voiceFeedback)]) == [PassionTag, KindTag]
  {
    var h := [Message(User, "ありがとう、楽しかったです！"), Message(Bot, botResponse), Message(Voice, voiceFeedback)];
    ThankfulExclamation();
    var first := h[..1];
    assert h[..2][..1] == first && first[..0] == [];
    assert AllMoments(first) == MomentTags(h[0]);
    assert AllMoments(h[..2]) == AllMoments(first);
    assert AllMoments(h) == AllMoments(h[..2]);
  }

  /** With the four computed scores the emotion adjustment is between 1 and
      6: their sum lies between 270 and 315. */
  lemma ComputedAdjustment(history: seq<Message>)
    ensures 1 <= EmotionAdjustment(EmotionScores(history)) <= 6
  {
    var scores := EmotionScores(history);
    var s := ScoreSum(scores);
    ScoreSumOfFour(scores);
    assert 10 <= s - NeutralEmotion * 4 <= 55;
  }

  lemma ScoreSumOfFour(scores: seq<Score>)
    requires |scores| == 4
    ensures ScoreSum(scores) == scores[0].value + scores[1].value + scores[2].value + scores[3].value
  {
    assert scores[..3][..2] == scores[..2];
    assert scores[..2][..1] == scores[..1];
    assert scores[..1][..0] == [];
    assert ScoreSum(scores[..1]) == scores[0].value;
    assert ScoreSum(scores[..2]) == ScoreSum(scores[..1]) + scores[1].value;
    assert ScoreSum(scores[..3]) == ScoreSum(scores[..2]) + scores[2].value;
    assert ScoreSum(scores) == ScoreSum(scores[..3]) + scores[3].value;
  }

  /** An empty conversation scores 31: 50, plus 1 from the base emotion
      scores, minus 20 for terse answers. That lands in the medium tier. */
  lemma EmptyConversationScore()
    ensures WantToTalkAgain(EmotionScores([]), MemorableMoments([]), []) == 31
    ensures TierOf(31) == Medium
  {
    var scores := EmotionScores([]);
    ScoreSumOfFour(scores);
  }

  /** Every score computed from a stored history is at least 31, so the
      pipeline never selects the low tier. */
  lemma PipelineNeverLow(history: seq<Message>)
    ensures WantToTalkAgain(EmotionScores(history), MemorableMoments(history), history) >= 31
    ensures TierOf(WantToTalkAgain(EmotionScores(history), MemorableMoments(history), history)) != Low
  {
    ComputedAdjustment(history);
  }
}
