/** ConversationAnalyzer: the rule-based checks run on one user utterance
    before any coaching feedback is asked of the provider. Each check answers
    a canned coaching message or nothing; the chain tries them in a fixed
    order and the first that answers wins. */
module ConversationAnalyzer {
  import opened Strings

  const InappropriateWords: seq<string> :=
    ["おしっこ", "うんち", "うんこ", "セックス", "エロ", "ちんちん", "おっぱい"]
  const InappropriateMessage: string :=
    "その話はちょっと...みおちゃんも困っちゃうと思うから、もう少し普通の話題にしてくれる？お互い楽しく話せる内容の方がええで〜"

  const ShortResponses: seq<string> :=
    ["はい", "いいえ", "うん", "そう", "はーい", "おー", "へー", "ふーん", "どうも"]
  /** Longest trimmed utterance that still counts as too short. */
  const ShortLimit: nat := 3
  const ShortMessage: string :=
    "その返事やと、みおちゃんがもっと知りたがってるのに会話が終わっちゃうで。『〜なんですよ』とか『〜だったんです』みたいに、もう少し詳しく話してくれたら、みおちゃんも喜ぶと思うで！"

  const RudePhrases: seq<string> :=
    ["似合ってない", "ダメ", "つまらん", "面白くない", "やめて", "うざい", "きもい"]
  const RudeMessage: string :=
    "その言い方やと、みおちゃんが傷ついちゃうかも...。相手の気持ちを考えて、『あまり好みじゃないです』とか優しい表現に変えてみて。そうすれば、みおちゃんも安心して話せるで"

  const CommandEndings: seq<string> :=
    ["やめろ", "しろ", "するな", "やめときな", "だまれ"]
  const CommandMessage: string :=
    "命令口調やとみおちゃんが怖がっちゃうで...。『〜してもらえますか？』とか『〜していただけると嬉しいです』みたいにお願いする感じで言うと、みおちゃんも気持ちよく応えてくれるで〜"

  /** `check_inappropriate_content`: any block-listed word anywhere. */
  function CheckInappropriateContent(message: string): (r: Option<string>)
    ensures r.Some? <==> exists j :: 0 <= j < |InappropriateWords| && Contains(message, InappropriateWords[j])
    ensures r.Some? ==> r.value == InappropriateMessage
  {
    if ContainsAny(message, InappropriateWords) then Some(InappropriateMessage) else None
  }

  /** `check_short_response`: the trimmed utterance is a listed
      acknowledgement or has at most three characters. */
  function CheckShortResponse(message: string): (r: Option<string>)
    ensures r.Some? ==> r.value == ShortMessage
  {
    var trimmed := Strip(message);
    if trimmed in ShortResponses || |trimmed| <= ShortLimit then Some(ShortMessage) else None
  }

  /** `check_rude_language`: any listed rude phrase anywhere. */
  function CheckRudeLanguage(message: string): (r: Option<string>)
    ensures r.Some? <==> exists j :: 0 <= j < |RudePhrases| && Contains(message, RudePhrases[j])
    ensures r.Some? ==> r.value == RudeMessage
  {
    if ContainsAny(message, RudePhrases) then Some(RudeMessage) else None
  }

  /** `check_command_tone`: the utterance as sent, without trimming, ends
      with a listed imperative ending. */
  function CheckCommandTone(message: string): (r: Option<string>)
    ensures r.Some? <==> exists j :: 0 <= j < |CommandEndings| && EndsWith(message, CommandEndings[j])
    ensures r.Some? ==> r.value == CommandMessage
  {
    if EndsWithAny(message, CommandEndings) then Some(CommandMessage) else None
  }

  /** The chain of `VoiceFeedback.generate`: inappropriate, short, rude,
      command, first answer wins; `None` only when all four stay silent. */
  function RuleCheck(message: string): (r: Option<string>)
    ensures r.None? <==>
      && CheckInappropriateContent(message).None?
      && CheckShortResponse(message).None?
      && CheckRudeLanguage(message).None?
      && CheckCommandTone(message).None?
    ensures r.Some? ==>
      r.value in {InappropriateMessage, ShortMessage, RudeMessage, CommandMessage}
  {
    if CheckInappropriateContent(message).Some? then CheckInappropriateContent(message)
    else if CheckShortResponse(message).Some? then CheckShortResponse(message)
    else if CheckRudeLanguage(message).Some? then CheckRudeLanguage(message)
    else CheckCommandTone(message)
  }

  // ---------------------------------------------------------------------
  // Lemmas

  /** Every listed acknowledgement is itself at most three characters long,
      so the list adds nothing to the length test: the short check fires
      exactly when the trimmed utterance has at most three characters. */
  lemma ShortResponseIffTrimmedLength(message: string)
    ensures CheckShortResponse(message).Some? <==> |Strip(message)| <= ShortLimit
  {
    var trimmed := Strip(message);
    if trimmed in ShortResponses {
      var j :| 0 <= j < |ShortResponses| && ShortResponses[j] == trimmed;
      ShortResponseLength(j);
    }
  }

  lemma ShortResponseLength(j: nat)
    requires j < |ShortResponses|
    ensures |ShortResponses[j]| <= ShortLimit
  {
    if j < 3 {
      assert ShortResponses[j] in ["はい", "いいえ", "うん"];
    } else if j < 6 {
      assert ShortResponses[j] in ["そう", "はーい", "おー"];
    } else {
      assert ShortResponses[j] in ["へー", "ふーん", "どうも"];
    }
  }

  /** A block-listed word wins over every other check. */
  lemma InappropriateWins(message: string, j: nat)
    requires j < |InappropriateWords| && Contains(message, InappropriateWords[j])
    ensures RuleCheck(message) == Some(InappropriateMessage)
  {
  }

  /** An utterance whose trimmed length is at most three and that holds no
      block-listed word gets the elaborate-more message, whatever else it
      contains. */
  lemma ShortUtteranceGetsShortMessage(message: string)
    requires |Strip(message)| <= ShortLimit
    requires !ContainsAny(message, InappropriateWords)
    ensures RuleCheck(message) == Some(ShortMessage)
  {
    ShortResponseIffTrimmedLength(message);
  }

  /** Past the first two checks a rude phrase gets the rude-language
      message, whether or not the utterance also ends like a command. */
  lemma RudeBeatsCommand(message: string)
    requires !ContainsAny(message, InappropriateWords)
    requires |Strip(message)| > ShortLimit
    requires ContainsAny(message, RudePhrases)
    ensures RuleCheck(message) == Some(RudeMessage)
  {
    ShortResponseIffTrimmedLength(message);
  }

  /** The command check is consulted last: it answers only for an
      utterance that passed the other three. */
  lemma CommandOnly(message: string)
    requires !ContainsAny(message, InappropriateWords)
    requires |Strip(message)| > ShortLimit
    requires !ContainsAny(message, RudePhrases)
    requires EndsWithAny(message, CommandEndings)
    ensures RuleCheck(message) == Some(CommandMessage)
  {
    ShortResponseIffTrimmedLength(message);
  }

  /** The chain stays silent exactly when no word is block-listed, the
      trimmed utterance is longer than three characters, no rude phrase
      occurs and no imperative ending closes the utterance. */
  lemma NoRuleFires(message: string)
    ensures RuleCheck(message).None? <==>
      && !ContainsAny(message, InappropriateWords)
      && |Strip(message)| > ShortLimit
      && !ContainsAny(message, RudePhrases)
      && !EndsWithAny(message, CommandEndings)
  {
    ShortResponseIffTrimmedLength(message);
    var clean := !ContainsAny(message, InappropriateWords);
    var long := |Strip(message)| > ShortLimit;
    var polite := !ContainsAny(message, RudePhrases);
    var request := !EndsWithAny(message, CommandEndings);
    assert CheckInappropriateContent(message).None? == clean;
    assert CheckShortResponse(message).None? == long;
    assert CheckRudeLanguage(message).None? == polite;
    assert CheckCommandTone(message).None? == request;
  }

  /** The command check looks at the untrimmed end: trailing whitespace
      hides an imperative ending from it. */
  lemma CommandToneSeesUntrimmedEnd(message: string, c: char)
    requires IsSpace(c)
    ensures CheckCommandTone(message + [c]).None?
  {
    var m := message + [c];
    forall j | 0 <= j < |CommandEndings|
      ensures !EndsWith(m, CommandEndings[j])
    {
      var e := CommandEndings[j];
      CommandEndingLastChar(j);
      if |e| <= |m| {
        assert m[|m| - |e|..][|e| - 1] == m[|m| - 1] == c;
      }
    }
  }

  lemma CommandEndingLastChar(j: nat)
    requires j < |CommandEndings|
    ensures |CommandEndings[j]| > 0 && !IsSpace(CommandEndings[j][|CommandEndings[j]| - 1])
  {
    var e := CommandEndings[j];
    assert e in ["やめろ", "しろ", "するな", "やめときな", "だまれ"];
  }
}
