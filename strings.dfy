/** The handful of Python `str` operations the pipeline relies on, over
    `string` (a sequence of Unicode code points, as Python's `str` is). */
module Strings {

  datatype Option<+T> = None | Some(value: T)

  /** Python's `str.isspace()` for one code point: the characters that
      `str.strip()` removes when called without arguments. */
  predicate IsSpace(c: char) {
    || ('\t' <= c <= '\r')
    || ('\U{1c}' <= c <= '\U{1f}')
    || c == ' '
    || c == '\U{85}'
    || c == '\U{a0}'
    || c == '\U{1680}'
    || ('\U{2000}' <= c <= '\U{200a}')
    || c == '\U{2028}'
    || c == '\U{2029}'
    || c == '\U{202f}'
    || c == '\U{205f}'
    || c == '\U{3000}'
  }

  predicate AllSpace(s: string) {
    forall i :: 0 <= i < |s| ==> IsSpace(s[i])
  }

  /** `s.lstrip()`: drops the leading whitespace and nothing else. */
  function StripStart(s: string): (r: string)
    ensures |r| <= |s| && r == s[|s| - |r|..]
    ensures AllSpace(s[..|s| - |r|])
    ensures r == [] || !IsSpace(r[0])
  {
    if |s| > 0 && IsSpace(s[0]) then
      var r := StripStart(s[1..]);
      StripStartStep(s, r);
      r
    else
      s
  }

  /** `s.rstrip()`: drops the trailing whitespace and nothing else. */
  function StripEnd(s: string): (r: string)
    ensures |r| <= |s| && r == s[..|r|]
    ensures AllSpace(s[|r|..])
    ensures r == [] || !IsSpace(r[|r| - 1])
  {
    if |s| > 0 && IsSpace(s[|s| - 1]) then
      var r := StripEnd(s[..|s| - 1]);
      StripEndStep(s, r);
      r
    else
      s
  }

  /** `s.strip()`: the result starts and ends with a non-space, and removing
      only whitespace from both ends of `s` gives it. */
  function Strip(s: string): (r: string)
    ensures |r| <= |s|
    ensures r == [] || (!IsSpace(r[0]) && !IsSpace(r[|r| - 1]))
  {
    StripEnd(StripStart(s))
  }

  predicate StartsWith(s: string, prefix: string) {
    |prefix| <= |s| && s[..|prefix|] == prefix
  }

  predicate EndsWith(s: string, suffix: string) {
    |suffix| <= |s| && s[|s| - |suffix|..] == suffix
  }

  /** `w` occurs in `s` starting at index `i`. */
  predicate OccursAt(s: string, w: string, i: int) {
    0 <= i && i + |w| <= |s| && s[i..i + |w|] == w
  }

  /** Python's `w in s` for two strings. */
  predicate Contains(s: string, w: string) {
    exists i :: 0 <= i <= |s| && OccursAt(s, w, i)
  }

  /** `any(w in s for w in words)` */
  predicate ContainsAny(s: string, words: seq<string>) {
    exists j :: 0 <= j < |words| && Contains(s, words[j])
  }

  /** `any(s.endswith(e) for e in endings)` */
  predicate EndsWithAny(s: string, endings: seq<string>) {
    exists j :: 0 <= j < |endings| && EndsWith(s, endings[j])
  }

  /** `s.replace(c, '')` for a one-character pattern. */
  function RemoveAll(s: string, c: char): (r: string)
    ensures |r| <= |s|
    ensures c !in r
    ensures forall d :: d != c ==> (d in r <==> d in s)
  {
    if s == [] then []
    else (if s[0] == c then [] else [s[0]]) + RemoveAll(s[1..], c)
  }

  /** `s.split(sep)` for a non-empty separator: occurrences are cut greedily
      from the left, so the pieces joined with `sep` give `s` back
      (lemma JoinSplit). */
  function Split(s: string, sep: string): (parts: seq<string>)
    requires sep != []
    ensures |parts| >= 1
    ensures StartsWith(s, parts[0])
    decreases |s|
  {
    if |s| < |sep| then [s]
    else if s[..|sep|] == sep then [""] + Split(s[|sep|..], sep)
    else
      var rest := Split(s[1..], sep);
      PrefixCons(s, rest[0]);
      [[s[0]] + rest[0]] + rest[1..]
  }

  lemma PrefixCons(s: string, p: string)
    requires s != [] && StartsWith(s[1..], p)
    ensures StartsWith(s, [s[0]] + p)
  {
    assert s[..|p| + 1] == [s[0]] + s[1..][..|p|];
  }

  /** `sep.join(parts)` */
  function Join(parts: seq<string>, sep: string): string {
    if |parts| == 0 then ""
    else if |parts| == 1 then parts[0]
    else parts[0] + sep + Join(parts[1..], sep)
  }

  // ---------------------------------------------------------------------
  // Lemmas

  /** Leading whitespace of `p` is all that `lstrip` removes once a
      non-space follows it. */
  lemma {:induction false} StripStartConcat(p: string, q: string)
    requires q != [] && !IsSpace(q[0])
    ensures StripStart(p + q) == StripStart(p) + q
  {
    if p == [] {
      assert p + q == q;
    } else if IsSpace(p[0]) {
      assert (p + q)[1..] == p[1..] + q;
      StripStartConcat(p[1..], q);
    }
  }

  lemma {:induction false} StripEndConcat(p: string, q: string)
    requires p != [] && !IsSpace(p[|p| - 1])
    ensures StripEnd(p + q) == p + StripEnd(q)
  {
    if q == [] {
      assert p + q == p;
    } else if IsSpace(q[|q| - 1]) {
      assert (p + q)[..|p + q| - 1] == p + q[..|q| - 1];
      StripEndConcat(p, q[..|q| - 1]);
    }
  }

  lemma StripStartStep(s: string, r: string)
    requires |s| > 0 && IsSpace(s[0])
    requires |r| <= |s| - 1 && r == s[1..][|s| - 1 - |r|..]
    requires AllSpace(s[1..][..|s| - 1 - |r|])
    ensures r == s[|s| - |r|..] && AllSpace(s[..|s| - |r|])
  {
    var k := |s| - |r|;
    assert s[1..][k - 1..] == s[k..];
    var spaces := s[1..][..k - 1];
    assert s[..k] == [s[0]] + spaces;
    forall i | 0 <= i < k
      ensures IsSpace(s[..k][i])
    {
      if i > 0 {
        assert s[..k][i] == spaces[i - 1];
      }
    }
  }

  lemma StripEndStep(s: string, r: string)
    requires |s| > 0 && IsSpace(s[|s| - 1])
    requires |r| <= |s| - 1 && r == s[..|s| - 1][..|r|]
    requires AllSpace(s[..|s| - 1][|r|..])
    ensures r == s[..|r|] && AllSpace(s[|r|..])
  {
    var init := s[..|s| - 1];
    assert init[..|r|] == s[..|r|];
    var spaces := init[|r|..];
    assert s[|r|..] == spaces + [s[|s| - 1]];
    forall i | 0 <= i < |s| - |r|
      ensures IsSpace(s[|r|..][i])
    {
      if i < |spaces| {
        assert s[|r|..][i] == spaces[i];
      }
    }
  }

  lemma StripStartAllSpace(a: string)
    requires AllSpace(a)
    ensures StripStart(a) == []
  {
  }

  lemma StripEndAllSpace(b: string)
    requires AllSpace(b)
    ensures StripEnd(b) == []
  {
  }

  /** A string that starts and ends with a non-space, framed by whitespace,
      strips to itself. */
  lemma StripFramed(a: string, w: string, b: string)
    requires w != [] && !IsSpace(w[0]) && !IsSpace(w[|w| - 1])
    requires AllSpace(a) && AllSpace(b)
    ensures Strip(a + w + b) == w
  {
    var wb := w + b;
    assert a + w + b == a + wb;
    StripStartConcat(a, wb);
    StripStartAllSpace(a);
    StripEndConcat(w, b);
    StripEndAllSpace(b);
    assert w + [] == w;
  }

  /** Stripping is idempotent: a string without outer whitespace strips to
      itself. */
  lemma StripStripped(s: string)
    requires s == [] || (!IsSpace(s[0]) && !IsSpace(s[|s| - 1]))
    ensures Strip(s) == s
  {
    if s != [] {
      StripFramed([], s, []);
      assert [] + s + [] == s;
    }
  }

  lemma {:induction false} RemoveAllConcat(s: string, t: string, c: char)
    ensures RemoveAll(s + t, c) == RemoveAll(s, c) + RemoveAll(t, c)
  {
    if s == [] {
      assert s + t == t;
    } else {
      assert (s + t)[1..] == s[1..] + t;
      assert (s + t)[0] == s[0];
      RemoveAllConcat(s[1..], t, c);
      var head := if s[0] == c then [] else [s[0]];
      ConcatAssociative(head, RemoveAll(s[1..], c), RemoveAll(t, c));
    }
  }

  lemma {:induction false} RemoveAllAbsent(s: string, c: char)
    requires c !in s
    ensures RemoveAll(s, c) == s
  {
    if s != [] {
      RemoveAllAbsent(s[1..], c);
    }
  }

  /** Splitting and joining again gives the original string back. */
  lemma {:induction false} JoinSplit(s: string, sep: string)
    requires sep != []
    ensures Join(Split(s, sep), sep) == s
    decreases |s|
  {
    if |s| < |sep| {
      assert Split(s, sep) == [s];
    } else if s[..|sep|] == sep {
      var tail := s[|sep|..];
      JoinSplit(tail, sep);
      SplitAtSep(s, sep);
      JoinAfterSep(sep, tail, Split(tail, sep));
      PrefixThenRest(s, sep);
    } else {
      var tail := s[1..];
      JoinSplit(tail, sep);
      SplitAtChar(s, sep);
      JoinAfterChar(s, sep, Split(tail, sep));
    }
  }

  lemma SplitAtSep(s: string, sep: string)
    requires sep != [] && |s| >= |sep| && s[..|sep|] == sep
    ensures Split(s, sep) == [""] + Split(s[|sep|..], sep)
  {
  }

  lemma SplitAtChar(s: string, sep: string)
    requires sep != [] && |s| >= |sep| && s[..|sep|] != sep
    ensures var rest := Split(s[1..], sep);
      Split(s, sep) == [[s[0]] + rest[0]] + rest[1..]
  {
  }

  lemma JoinAfterSep(sep: string, tail: string, rest: seq<string>)
    requires rest != [] && Join(rest, sep) == tail
    ensures Join([""] + rest, sep) == sep + tail
  {
    JoinCons("", rest, sep);
    assert "" + sep == sep;
  }

  /** A string is its prefix followed by the rest. */
  lemma PrefixThenRest(s: string, p: string)
    requires StartsWith(s, p)
    ensures s == p + s[|p|..]
  {
    assert s == s[..|p|] + s[|p|..];
  }

  lemma JoinAfterChar(s: string, sep: string, rest: seq<string>)
    requires s != []
    requires rest != [] && Join(rest, sep) == s[1..]
    ensures Join([[s[0]] + rest[0]] + rest[1..], sep) == s
  {
    JoinHead(rest, [s[0]], sep);
    assert s == [s[0]] + s[1..];
  }

  /** Putting a piece in front adds it and one separator. */
  lemma JoinCons(p: string, parts: seq<string>, sep: string)
    requires parts != []
    ensures Join([p] + parts, sep) == p + sep + Join(parts, sep)
  {
    assert ([p] + parts)[1..] == parts;
  }

  /** Prefixing the first piece prefixes the joined string. */
  lemma JoinHead(parts: seq<string>, c: string, sep: string)
    requires parts != []
    ensures Join([c + parts[0]] + parts[1..], sep) == c + Join(parts, sep)
  {
    var q := [c + parts[0]] + parts[1..];
    assert q[1..] == parts[1..];
    if |parts| > 1 {
      assert Join(q, sep) == (c + parts[0]) + sep + Join(parts[1..], sep);
      assert Join(parts, sep) == parts[0] + sep + Join(parts[1..], sep);
    }
  }

  /** Joining the first `k` pieces of a split gives a prefix of the string. */
  lemma JoinSplitPrefix(s: string, sep: string, k: nat)
    requires sep != [] && 1 <= k <= |Split(s, sep)|
    ensures StartsWith(s, Join(Split(s, sep)[..k], sep))
  {
    var parts := Split(s, sep);
    JoinSplit(s, sep);
    if k < |parts| {
      JoinTake(parts, sep, k);
    } else {
      assert parts[..k] == parts;
    }
  }

  /** Splitting the join of the first `k` pieces of a split gives back
      exactly those `k` pieces: the cut is at separator boundaries and
      creates no new separator. */
  lemma {:induction false} SplitJoinTake(s: string, sep: string, k: nat)
    requires sep != [] && 1 <= k <= |Split(s, sep)|
    ensures Split(Join(Split(s, sep)[..k], sep), sep) == Split(s, sep)[..k]
    decreases |s|
  {
    if |s| < |sep| {
      assert Split(s, sep)[..k] == [s];
    } else if s[..|sep|] == sep {
      var rest := Split(s[|sep|..], sep);
      SplitAtSep(s, sep);
      if k == 1 {
        assert Split(s, sep)[..k] == [""];
        assert Split("", sep) == [""];
      } else {
        SplitJoinTake(s[|sep|..], sep, k - 1);
        var first := rest[..k - 1];
        assert Split(s, sep)[..k] == [""] + first;
        SplitJoinSep(sep, first, Join(first, sep));
      }
    } else {
      var rest := Split(s[1..], sep);
      SplitAtChar(s, sep);
      SplitJoinTake(s[1..], sep, k);
      var first := rest[..k];
      var t := Join(first, sep);
      assert Split(s, sep)[..k] == [[s[0]] + first[0]] + first[1..];
      JoinSplitPrefix(s[1..], sep, k);
      PrefixCons(s, t);
      if |[s[0]] + t| >= |sep| {
        NoSeparatorAtStart(s, sep, [s[0]] + t);
      }
      SplitJoinChar(s[0], sep, first, t);
    }
  }

  /** A separator in front of pieces that split back to themselves adds one
      empty piece. */
  lemma SplitJoinSep(sep: string, first: seq<string>, t: string)
    requires sep != [] && first != []
    requires Join(first, sep) == t && Split(t, sep) == first
    ensures Split(Join([""] + first, sep), sep) == [""] + first
  {
    JoinAfterSep(sep, t, first);
    var u := sep + t;
    assert u[..|sep|] == sep;
    SplitAtSep(u, sep);
    assert u[|sep|..] == t;
  }

  /** A character in front of pieces that split back to themselves, where
      no separator starts, joins the first piece. */
  lemma SplitJoinChar(c: char, sep: string, first: seq<string>, t: string)
    requires sep != [] && first != []
    requires Join(first, sep) == t && Split(t, sep) == first
    requires |[c] + t| >= |sep| ==> ([c] + t)[..|sep|] != sep
    ensures Split(Join([[c] + first[0]] + first[1..], sep), sep) == [[c] + first[0]] + first[1..]
  {
    JoinHead(first, [c], sep);
    var u := [c] + t;
    if |u| >= |sep| {
      SplitAtChar(u, sep);
      assert u[1..] == t;
    } else {
      assert Split(u, sep) == [u];
      assert Split(t, sep) == [t];
    }
  }

  lemma NoSeparatorAtStart(s: string, sep: string, u: string)
    requires StartsWith(s, u) && |u| >= |sep| && |s| >= |sep| && s[..|sep|] != sep
    ensures u[..|sep|] != sep
  {
    assert u[..|sep|] == s[..|sep|];
  }

  /** Trimming the end first changes nothing about a full strip. */
  lemma StripAfterStripEnd(b: string)
    ensures Strip(StripEnd(b)) == Strip(b)
  {
    var c, tail := EndParts(b);
    if c == [] {
      assert b == tail;
      StripStartAllSpace(b);
    } else {
      var sp, w := StartParts(c);
      assert w[|w| - 1] == c[|c| - 1];
      FramedStrip(sp, w, tail);
    }
  }

  lemma EndParts(b: string) returns (c: string, tail: string)
    ensures c == StripEnd(b) && AllSpace(tail) && b == c + tail
    ensures c == [] || !IsSpace(c[|c| - 1])
  {
    c := StripEnd(b);
    tail := b[|c|..];
    SliceHalves(b, |c|);
  }

  lemma StartParts(c: string) returns (sp: string, w: string)
    ensures w == StripStart(c) && AllSpace(sp) && c == sp + w
    ensures w == [] || !IsSpace(w[0])
  {
    w := StripStart(c);
    var i := |c| - |w|;
    sp := c[..i];
    SliceHalves(c, i);
  }

  lemma ConcatAssociative(a: string, b: string, c: string)
    ensures a + b + c == a + (b + c)
  {
  }

  lemma SliceHalves(s: string, i: nat)
    requires i <= |s|
    ensures s == s[..i] + s[i..]
  {
  }

  /** A trimmed word between whitespace strips to itself, with or without
      the trailing whitespace. */
  lemma FramedStrip(sp: string, w: string, tail: string)
    requires w != [] && !IsSpace(w[0]) && !IsSpace(w[|w| - 1])
    requires AllSpace(sp) && AllSpace(tail)
    ensures Strip(sp + w + tail) == w && Strip(sp + w) == w
  {
    StripFramed(sp, w, tail);
    StripFramed(sp, w, []);
    assert sp + w + [] == sp + w;
  }

  /** Joining the first `k` pieces gives a prefix of joining all of them:
      the remaining pieces follow after one more separator. */
  lemma {:induction false} JoinTake(parts: seq<string>, sep: string, k: nat)
    requires 1 <= k < |parts|
    ensures Join(parts, sep) == Join(parts[..k], sep) + sep + Join(parts[k..], sep)
  {
    if k > 1 {
      JoinTake(parts[1..], sep, k - 1);
      assert parts[..k][1..] == parts[1..][..k - 1];
      assert parts[1..][k - 1..] == parts[k..];
    }
  }
}
