/** EmotionDetector: asks the provider for one label of a closed set and
    coerces whatever comes back into that set. */
module EmotionDetector {
  import opened Strings
  import opened Provider

  /** The ten labels: joy, relief, anticipation, anxiety, confusion, sadness,
      anger, impatience, despondency, neutral. */
  const ValidEmotions: seq<string> :=
    ["喜び", "安心", "期待", "不安", "困惑", "悲しみ", "怒り", "焦り", "落ち込み", "中立"]
  const Neutral: string := "中立"

  /** Characters the clean-up removes around (whitespace) or anywhere in
      (double and single quotes) the raw answer. */
  predicate IsWrapping(c: char) {
    IsSpace(c) || c == '"' || c == '\''
  }

  predicate AllWrapping(s: string) {
    forall i :: 0 <= i < |s| ==> IsWrapping(s[i])
  }

  /** `.replace('"', '').replace("'", '')` */
  function Unquoted(s: string): (r: string)
    ensures '"' !in r && '\'' !in r
  {
    RemoveAll(RemoveAll(s, '"'), '\'')
  }

  /** `text.strip()`, then `.replace('"', '').replace("'", '').strip()`. */
  function CleanLabel(raw: string): (cleaned: string)
    ensures cleaned == [] || (!IsSpace(cleaned[0]) && !IsSpace(cleaned[|cleaned| - 1]))
  {
    Strip(Unquoted(Strip(raw)))
  }

  /** The label reported for one provider answer: the cleaned answer when it
      is one of the ten labels, `中立` for anything else and for a failed call. */
  function NormaliseEmotion(answer: Option<string>): (emotion: string)
    ensures emotion in ValidEmotions
    ensures answer.None? ==> emotion == Neutral
    ensures answer.Some? && CleanLabel(answer.value) !in ValidEmotions ==> emotion == Neutral
    ensures answer.Some? && emotion != Neutral ==> emotion == CleanLabel(answer.value)
    ensures answer.Some? && CleanLabel(answer.value) in ValidEmotions ==> emotion == CleanLabel(answer.value)
  {
    match answer
    case None => Neutral
    case Some(raw) =>
      var cleaned := CleanLabel(raw);
      if cleaned in ValidEmotions then cleaned else Neutral
  }

  /** `EmotionDetector.detect`: the prompt carries the utterance only, never
      the history. */
  function Detect(userMessage: string, complete: Completion): (emotion: string)
    ensures emotion in ValidEmotions
  {
    NormaliseEmotion(complete(EmotionPrompt(userMessage)))
  }

  // ---------------------------------------------------------------------
  // Lemmas

  /** No label holds a wrapping character, and none is empty. */
  lemma LabelsAreBare(lbl: string)
    requires lbl in ValidEmotions
    ensures lbl != [] && !IsSpace(lbl[0]) && !IsSpace(lbl[|lbl| - 1])
    ensures '"' !in lbl && '\'' !in lbl
  {
  }

  lemma WrappingSlice(s: string, i: nat, j: nat)
    requires AllWrapping(s) && i <= j <= |s|
    ensures AllWrapping(s[i..j])
  {
    forall k | 0 <= k < j - i
      ensures IsWrapping(s[i..j][k])
    {
      assert s[i..j][k] == s[i + k];
    }
  }

  lemma {:induction false} UnquotedWrapping(s: string)
    requires AllWrapping(s)
    ensures AllSpace(Unquoted(s))
  {
    if s != [] {
      WrappingSlice(s, 1, |s|);
      UnquotedWrapping(s[1..]);
      assert s == [s[0]] + s[1..];
      UnquotedConcat([s[0]], s[1..]);
      UnquotedWrappingChar(s[0]);
      AllSpaceConcat(Unquoted([s[0]]), Unquoted(s[1..]));
    }
  }

  lemma UnquotedWrappingChar(c: char)
    requires IsWrapping(c)
    ensures AllSpace(Unquoted([c]))
  {
    assert [c][1..] == [];
  }

  lemma UnquotedConcat(a: string, b: string)
    ensures Unquoted(a + b) == Unquoted(a) + Unquoted(b)
  {
    RemoveAllConcat(a, b, '"');
    RemoveAllConcat(RemoveAll(a, '"'), RemoveAll(b, '"'), '\'');
  }

  lemma AllSpaceConcat(a: string, b: string)
    requires AllSpace(a) && AllSpace(b)
    ensures AllSpace(a + b)
  {
    forall i | 0 <= i < |a + b|
      ensures IsSpace((a + b)[i])
    {
      if i >= |a| {
        assert (a + b)[i] == b[i - |a|];
      }
    }
  }

  /** A valid label wrapped in any mix of whitespace and quote characters
      is reported as itself. */
  lemma WrappedLabelIsKept(pre: string, lbl: string, post: string)
    requires lbl in ValidEmotions
    requires AllWrapping(pre) && AllWrapping(post)
    ensures NormaliseEmotion(Some(pre + lbl + post)) == lbl
  {
    LabelsAreBare(lbl);
    CleanWrappedWord(pre, lbl, post);
  }

  /** Clean-up of a word without wrapping characters, wrapped in them. */
  lemma CleanWrappedWord(pre: string, lbl: string, post: string)
    requires lbl != [] && !IsSpace(lbl[0]) && !IsSpace(lbl[|lbl| - 1])
    requires '"' !in lbl && '\'' !in lbl
    requires AllWrapping(pre) && AllWrapping(post)
    ensures CleanLabel(pre + lbl + post) == lbl
  {
    var pre', post' := OuterStrip(pre, lbl, post);
    var a, b := Unquote(pre', lbl, post');
    StripFramed(a, lbl, b);
  }

  /** The outer strip takes whitespace from the wrappings only. */
  lemma OuterStrip(pre: string, lbl: string, post: string) returns (pre': string, post': string)
    requires lbl != [] && !IsSpace(lbl[0]) && !IsSpace(lbl[|lbl| - 1])
    requires AllWrapping(pre) && AllWrapping(post)
    ensures AllWrapping(pre') && AllWrapping(post')
    ensures Strip(pre + lbl + post) == pre' + lbl + post'
  {
    pre' := StripStartWrapped(pre, lbl, post);
    post' := StripEndWrapped(pre', lbl, post);
  }

  lemma StripStartWrapped(pre: string, lbl: string, post: string) returns (pre': string)
    requires lbl != [] && !IsSpace(lbl[0]) && AllWrapping(pre)
    ensures AllWrapping(pre') && StripStart(pre + lbl + post) == pre' + lbl + post
  {
    var rest := lbl + post;
    assert rest[0] == lbl[0];
    ConcatAssociative(pre, lbl, post);
    StripStartConcat(pre, rest);
    pre' := StripStart(pre);
    ConcatAssociative(pre', lbl, post);
    WrappingSlice(pre, |pre| - |pre'|, |pre|);
  }

  lemma StripEndWrapped(pre: string, lbl: string, post: string) returns (post': string)
    requires lbl != [] && !IsSpace(lbl[|lbl| - 1]) && AllWrapping(post)
    ensures AllWrapping(post') && StripEnd(pre + lbl + post) == pre + lbl + post'
  {
    var init := pre + lbl;
    assert init[|init| - 1] == lbl[|lbl| - 1];
    StripEndConcat(init, post);
    post' := StripEnd(post);
    WrappingSlice(post, 0, |post'|);
  }

  /** Quote removal leaves the word alone and the wrappings all spaces. */
  lemma Unquote(pre: string, lbl: string, post: string) returns (a: string, b: string)
    requires '"' !in lbl && '\'' !in lbl
    requires AllWrapping(pre) && AllWrapping(post)
    ensures AllSpace(a) && AllSpace(b)
    ensures Unquoted(pre + lbl + post) == a + lbl + b
  {
    UnquotedConcat(pre + lbl, post);
    UnquotedConcat(pre, lbl);
    RemoveAllAbsent(lbl, '"');
    RemoveAllAbsent(lbl, '\'');
    a := Unquoted(pre);
    b := Unquoted(post);
    UnquotedWrapping(pre);
    UnquotedWrapping(post);
  }

  /** An answer that does not clean up to a label, such as `ワクワク度MAX`,
      is reported as neutral, and so is a failed call. */
  lemma UnknownAnswerIsNeutral(raw: string)
    requires CleanLabel(raw) !in ValidEmotions
    ensures NormaliseEmotion(Some(raw)) == Neutral && NormaliseEmotion(None) == Neutral
  {
  }
}
