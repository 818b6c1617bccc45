/**
 * Text normalisation: the title-casing applied to every display label
 * (main.js `toTitleCase`).  Case mapping is ASCII only; white space is the
 * set JavaScript's `trim` removes and its regular-expression class `\s`
 * matches.
 */
module Text {
  import opened Wrappers
  import Strings

  /** JavaScript's WhiteSpace and LineTerminator characters. */
  predicate IsSpace(c: char) {
    || c == ' ' || c == '\t' || c == '\n' || c == '\r'
    || c == '\U{000B}' || c == '\U{000C}' || c == '\U{00A0}' || c == '\U{1680}'
    || ('\U{2000}' <= c <= '\U{200A}')
    || c == '\U{2028}' || c == '\U{2029}' || c == '\U{202F}' || c == '\U{205F}'
    || c == '\U{3000}' || c == '\U{FEFF}'
  }

  /** The regular-expression class `\w`. */
  predicate IsWordChar(c: char) {
    'a' <= c <= 'z' || 'A' <= c <= 'Z' || '0' <= c <= '9' || c == '_'
  }

  function LowerChar(c: char): char {
    if 'A' <= c <= 'Z' then (c as int + 32) as char else c
  }

  function UpperChar(c: char): char {
    if 'a' <= c <= 'z' then (c as int - 32) as char else c
  }

  /** `s.toLowerCase()` on ASCII letters. */
  function Lower(s: string): (r: string)
    ensures |r| == |s|
    ensures forall i :: 0 <= i < |s| ==> r[i] == LowerChar(s[i])
  {
    seq(|s|, i requires 0 <= i < |s| => LowerChar(s[i]))
  }

  /** `s.toUpperCase()` on ASCII letters. */
  function Upper(s: string): (r: string)
    ensures |r| == |s|
    ensures forall i :: 0 <= i < |s| ==> r[i] == UpperChar(s[i])
  {
    seq(|s|, i requires 0 <= i < |s| => UpperChar(s[i]))
  }

  /** `a` and `b` differ at most in the case of their letters. */
  predicate CaseVariant(a: string, b: string) {
    |a| == |b| && forall i :: 0 <= i < |a| ==> LowerChar(a[i]) == LowerChar(b[i])
  }

  // ---------------------------------------------------------------- trim

  /** `s` with its leading white space removed. */
  function TrimStart(s: string): string
    decreases |s|
  {
    if s != [] && IsSpace(s[0]) then TrimStart(s[1..]) else s
  }

  /** `s` with its trailing white space removed. */
  function TrimEnd(s: string): string
    decreases |s|
  {
    if s != [] && IsSpace(s[|s| - 1]) then TrimEnd(s[..|s| - 1]) else s
  }

  /** `s.trim()`. */
  function Trim(s: string): string {
    TrimEnd(TrimStart(s))
  }

  lemma {:induction false} TrimStartSpec(s: string)
    ensures |TrimStart(s)| <= |s| && TrimStart(s) == s[|s| - |TrimStart(s)|..]
    ensures forall i :: 0 <= i < |s| - |TrimStart(s)| ==> IsSpace(s[i])
    ensures TrimStart(s) == [] || !IsSpace(TrimStart(s)[0])
    decreases |s|
  {
    if s != [] && IsSpace(s[0]) {
      TrimStartSpec(s[1..]);
      var r := TrimStart(s[1..]);
      assert s[1..][|s| - 1 - |r|..] == s[|s| - |r|..];
      assert forall i :: 1 <= i < |s| - |r| ==> s[i] == s[1..][i - 1];
    }
  }

  lemma {:induction false} TrimEndSpec(s: string)
    ensures |TrimEnd(s)| <= |s| && TrimEnd(s) == s[..|TrimEnd(s)|]
    ensures forall i :: |TrimEnd(s)| <= i < |s| ==> IsSpace(s[i])
    ensures TrimEnd(s) == [] || !IsSpace(TrimEnd(s)[|TrimEnd(s)| - 1])
    decreases |s|
  {
    if s != [] && IsSpace(s[|s| - 1]) {
      TrimEndSpec(s[..|s| - 1]);
      var r := TrimEnd(s[..|s| - 1]);
      assert s[..|s| - 1][..|r|] == s[..|r|];
      assert forall i :: |r| <= i < |s| - 1 ==> s[i] == s[..|s| - 1][i];
    }
  }

  /** `r` is the slice of `s` at `a`, and only white space lies around it. */
  predicate SliceBetweenSpaces(s: string, r: string, a: nat) {
    && a + |r| <= |s| && r == s[a..a + |r|]
    && (forall i :: 0 <= i < a ==> IsSpace(s[i]))
    && (forall i :: a + |r| <= i < |s| ==> IsSpace(s[i]))
  }

  /** The trim neither starts nor ends with white space, and only white space was cut off around it. */
  lemma TrimSpec(s: string)
    ensures Trim(s) == [] || (!IsSpace(Trim(s)[0]) && !IsSpace(Trim(s)[|Trim(s)| - 1]))
    ensures exists a: nat :: SliceBetweenSpaces(s, Trim(s), a)
  {
    var t := TrimStart(s);
    var r := TrimEnd(t);
    TrimStartSpec(s);
    TrimEndSpec(t);
    var a := |s| - |t|;
    assert r == s[a..a + |r|];
    assert forall i :: a + |r| <= i < |s| ==> s[i] == t[i - a];
    assert SliceBetweenSpaces(s, r, a);
    if r != [] {
      assert r[0] == t[0];
    }
  }

  /** A string that neither starts nor ends with white space is its own trim. */
  lemma TrimNoop(s: string)
    requires s == [] || (!IsSpace(s[0]) && !IsSpace(s[|s| - 1]))
    ensures Trim(s) == s
  {
  }

  // ------------------------------------------------- the word replacement

  /** The length of the run of non-space characters `s` starts with. */
  function NonSpaceRun(s: string): (n: nat)
    ensures n <= |s|
    ensures forall i :: 0 <= i < n ==> !IsSpace(s[i])
    ensures n < |s| ==> IsSpace(s[n])
  {
    if s != [] && !IsSpace(s[0]) then 1 + NonSpaceRun(s[1..]) else 0
  }

  /** The index of the first word character of `c`, or `|c|` if it has none. */
  function FirstWordIndex(c: string): (k: nat)
    ensures k <= |c|
    ensures forall i :: 0 <= i < k ==> !IsWordChar(c[i])
    ensures k < |c| ==> IsWordChar(c[k])
  {
    if c == [] || IsWordChar(c[0]) then 0 else 1 + FirstWordIndex(c[1..])
  }

  /**
   * The replacement callback: `of` and `the` stay as they are, the Roman
   * numerals one to five are upper-cased, anything else gets its first
   * character upper-cased.
   */
  function WordRule(m: string): (r: string)
    requires m != []
    ensures CaseVariant(r, m)
  {
    if m == "of" || m == "the" then m
    else if m in ["i", "ii", "iii", "iv", "v"] then Upper(m)
    else [UpperChar(m[0])] + m[1..]
  }

  /**
   * The global replace of the pattern `\b\w\S*` by WordRule, read as the
   * regular-expression engine runs it: scanning left to right, a match
   * starts at a word character that does not follow one (`\b`; `afterWord`
   * says whether the character before `s` was a word character) and
   * extends greedily over the non-space characters (`\S*`); scanning
   * resumes after the match.
   */
  function ReplaceWords(s: string, afterWord: bool): string
    decreases |s|
  {
    if s == [] then []
    else if IsWordChar(s[0]) && !afterWord then
      var n := NonSpaceRun(s);
      WordRule(s[..n]) + ReplaceWords(s[n..], IsWordChar(s[n - 1]))
    else
      [s[0]] + ReplaceWords(s[1..], IsWordChar(s[0]))
  }

  /** One chunk of non-space characters: kept up to its first word character, rewritten from there on. */
  function RewriteChunk(c: string): (r: string)
  {
    var k := FirstWordIndex(c);
    c[..k] + (if k < |c| then WordRule(c[k..]) else [])
  }

  /**
   * The chunk rule: white space is copied, and each maximal run of
   * non-space characters is rewritten by RewriteChunk.
   */
  function TitleCaseChunks(s: string): string
    decreases |s|
  {
    if s == [] then []
    else if IsSpace(s[0]) then [s[0]] + TitleCaseChunks(s[1..])
    else
      var n := NonSpaceRun(s);
      RewriteChunk(s[..n]) + TitleCaseChunks(s[n..])
  }

  /** After a chunk, the scanner's memory of the previous character no longer matters. */
  lemma ReplaceWordsAtSpace(s: string, afterWord: bool)
    requires s == [] || IsSpace(s[0])
    ensures ReplaceWords(s, afterWord) == ReplaceWords(s, false)
  {
  }

  /** A chunk that starts with a word character is one match of the scanner. */
  lemma ReplaceWordsWordChunk(c: string, rest: string)
    requires c != [] && IsWordChar(c[0]) && forall i :: 0 <= i < |c| ==> !IsSpace(c[i])
    requires rest == [] || IsSpace(rest[0])
    ensures ReplaceWords(c + rest, false) == RewriteChunk(c) + ReplaceWords(rest, false)
  {
    ReplaceWordsMatch(c, rest);
    ReplaceWordsAtSpace(rest, IsWordChar(c[|c| - 1]));
    RewriteChunkWord(c);
  }

  /** The match starting at a word character spans the whole chunk. */
  lemma ReplaceWordsMatch(c: string, rest: string)
    requires c != [] && IsWordChar(c[0]) && forall i :: 0 <= i < |c| ==> !IsSpace(c[i])
    requires rest == [] || IsSpace(rest[0])
    ensures ReplaceWords(c + rest, false) == WordRule(c) + ReplaceWords(rest, IsWordChar(c[|c| - 1]))
  {
    var s := c + rest;
    NonSpaceRunOfChunk(c, rest);
    assert s[..|c|] == c && s[|c|..] == rest;
  }

  /** A chunk that starts with a word character is rewritten whole. */
  lemma RewriteChunkWord(c: string)
    requires c != [] && IsWordChar(c[0])
    ensures RewriteChunk(c) == WordRule(c)
  {
    assert FirstWordIndex(c) == 0;
    assert c[..0] == [] && c[0..] == c;
  }

  /** A chunk that starts with another character keeps it and goes on with the rest. */
  lemma RewriteChunkSkip(c: string)
    requires c != [] && !IsWordChar(c[0])
    ensures RewriteChunk(c) == [c[0]] + RewriteChunk(c[1..])
  {
    var tail := c[1..];
    var k := FirstWordIndex(tail);
    var w := if k < |tail| then WordRule(tail[k..]) else [];
    RewriteChunkSplit(c, k, w);
    assert RewriteChunk(tail) == tail[..k] + w;
    Strings.ConcatAssoc([c[0]], tail[..k], w);
  }

  lemma RewriteChunkSplit(c: string, k: nat, w: string)
    requires c != [] && !IsWordChar(c[0])
    requires k == FirstWordIndex(c[1..])
    requires w == if k < |c[1..]| then WordRule(c[1..][k..]) else []
    ensures RewriteChunk(c) == ([c[0]] + c[1..][..k]) + w
  {
    var tail := c[1..];
    assert FirstWordIndex(c) == k + 1;
    assert c[..k + 1] == [c[0]] + tail[..k];
    assert k + 1 < |c| ==> c[k + 1..] == tail[k..];
  }

  /** A character that is not a word character is copied and resets `\b`. */
  lemma ReplaceWordsSkip(c: string, rest: string)
    requires c != [] && !IsWordChar(c[0])
    ensures ReplaceWords(c + rest, false) == [c[0]] + ReplaceWords(c[1..] + rest, false)
  {
    assert (c + rest)[0] == c[0] && (c + rest)[1..] == c[1..] + rest;
  }

  /** The scanner rewrites one chunk exactly as RewriteChunk does. */
  lemma {:induction false} ReplaceWordsChunk(c: string, rest: string)
    requires c != [] && forall i :: 0 <= i < |c| ==> !IsSpace(c[i])
    requires rest == [] || IsSpace(rest[0])
    ensures ReplaceWords(c + rest, false) == RewriteChunk(c) + ReplaceWords(rest, false)
    decreases |c|
  {
    if IsWordChar(c[0]) {
      ReplaceWordsWordChunk(c, rest);
    } else {
      if |c| == 1 {
        assert c[1..] == [] && c[1..] + rest == rest;
        assert RewriteChunk(c[1..]) == [];
      } else {
        assert forall i :: 0 <= i < |c[1..]| ==> c[1..][i] == c[i + 1];
        ReplaceWordsChunk(c[1..], rest);
      }
      ReplaceWordsChunkSkip(c, rest);
    }
  }

  /** A leading character that is not a word character is copied by the scanner and by RewriteChunk alike. */
  lemma ReplaceWordsChunkSkip(c: string, rest: string)
    requires c != [] && !IsWordChar(c[0])
    requires ReplaceWords(c[1..] + rest, false) == RewriteChunk(c[1..]) + ReplaceWords(rest, false)
    ensures ReplaceWords(c + rest, false) == RewriteChunk(c) + ReplaceWords(rest, false)
  {
    ReplaceWordsSkip(c, rest);
    RewriteChunkSkip(c);
    Strings.ConcatAssoc([c[0]], RewriteChunk(c[1..]), ReplaceWords(rest, false));
  }

  lemma {:induction false} NonSpaceRunOfChunk(c: string, rest: string)
    requires forall i :: 0 <= i < |c| ==> !IsSpace(c[i])
    requires rest == [] || IsSpace(rest[0])
    ensures NonSpaceRun(c + rest) == |c|
    decreases |c|
  {
    if c != [] {
      assert (c + rest)[1..] == c[1..] + rest;
      NonSpaceRunOfChunk(c[1..], rest);
    } else {
      assert c + rest == rest;
    }
  }

  /** The regular-expression replacement is the chunk rule. */
  lemma {:induction false} ReplaceWordsIsChunkRule(s: string)
    ensures ReplaceWords(s, false) == TitleCaseChunks(s)
    decreases |s|
  {
    if s != [] {
      if IsSpace(s[0]) {
        ReplaceWordsIsChunkRule(s[1..]);
      } else {
        var n := NonSpaceRun(s);
        assert s == s[..n] + s[n..];
        ReplaceWordsChunk(s[..n], s[n..]);
        ReplaceWordsIsChunkRule(s[n..]);
      }
    }
  }

  /**
   * `toTitleCase(str)`: the empty string for null; otherwise the global
   * replace run over the trimmed, lower-cased text.
   */
  function TitleCase(str: Option<string>): string {
    match str
    case None => ""
    case Some(s) => ReplaceWords(Lower(Trim(s)), false)
  }

  /** Null gives the empty string; any text, the chunk rule on its trimmed, lower-cased form. */
  lemma TitleCaseIsChunkRule(str: Option<string>)
    ensures str.None? ==> TitleCase(str) == ""
    ensures str.Some? ==> TitleCase(str) == TitleCaseChunks(Lower(Trim(str.value)))
  {
    if str.Some? {
      ReplaceWordsIsChunkRule(Lower(Trim(str.value)));
    }
  }

  // ------------------------------------------------------------ properties

  lemma CaseVariantConcat(a: string, b: string, c: string, d: string)
    requires CaseVariant(a, b) && CaseVariant(c, d)
    ensures CaseVariant(a + c, b + d)
  {
  }

  lemma CaseVariantSpace(a: string, b: string, i: int)
    requires CaseVariant(a, b) && 0 <= i < |a|
    ensures IsSpace(a[i]) <==> IsSpace(b[i])
  {
  }

  lemma {:induction false} RewriteChunkCaseVariant(c: string)
    ensures CaseVariant(RewriteChunk(c), c)
  {
    var k := FirstWordIndex(c);
    assert c == c[..k] + c[k..];
    if k < |c| {
      CaseVariantConcat(c[..k], c[..k], WordRule(c[k..]), c[k..]);
    }
  }

  /** The chunk rule changes only the case of letters. */
  lemma {:induction false} TitleCaseChunksCaseVariant(s: string)
    ensures CaseVariant(TitleCaseChunks(s), s)
    decreases |s|
  {
    if s != [] {
      if IsSpace(s[0]) {
        TitleCaseChunksCaseVariant(s[1..]);
        CaseVariantConcat([s[0]], [s[0]], TitleCaseChunks(s[1..]), s[1..]);
        assert s == [s[0]] + s[1..];
      } else {
        var n := NonSpaceRun(s);
        TitleCaseChunksCaseVariant(s[n..]);
        TitleCaseChunksChunkStep(s, n);
      }
    }
  }

  /** One chunk followed by a case variant of the rest gives a case variant of the whole. */
  lemma TitleCaseChunksChunkStep(s: string, n: nat)
    requires s != [] && !IsSpace(s[0]) && n == NonSpaceRun(s)
    requires CaseVariant(TitleCaseChunks(s[n..]), s[n..])
    ensures CaseVariant(TitleCaseChunks(s), s)
  {
    var chunk, tail := s[..n], s[n..];
    assert s == chunk + tail;
    assert TitleCaseChunks(s) == RewriteChunk(chunk) + TitleCaseChunks(tail);
    RewriteChunkCaseVariant(chunk);
    CaseVariantConcat(RewriteChunk(chunk), chunk, TitleCaseChunks(tail), tail);
  }

  /**
   * The title-cased text has the length of the trimmed input and differs
   * from it only in the case of letters.
   */
  lemma TitleCaseCaseOnly(s: string)
    ensures CaseVariant(TitleCase(Some(s)), Trim(s))
  {
    var t := Trim(s);
    TitleCaseIsChunkRule(Some(s));
    TitleCaseChunksCaseVariant(Lower(t));
  }

  lemma LowerOfCaseVariant(a: string, b: string)
    requires CaseVariant(a, b)
    ensures Lower(a) == Lower(b)
  {
  }

  lemma LowerIdempotent(s: string)
    ensures Lower(Lower(s)) == Lower(s)
  {
  }

  /** A case variant of a trimmed string is trimmed too. */
  lemma TrimCaseVariant(r: string, t: string)
    requires CaseVariant(r, t)
    requires t == [] || (!IsSpace(t[0]) && !IsSpace(t[|t| - 1]))
    ensures Trim(r) == r
  {
    if r != [] {
      CaseVariantSpace(r, t, 0);
      CaseVariantSpace(r, t, |r| - 1);
    }
    TrimNoop(r);
  }

  /** Title-casing twice is title-casing once. */
  lemma TitleCaseIdempotent(s: string)
    ensures TitleCase(Some(TitleCase(Some(s)))) == TitleCase(Some(s))
  {
    var trimmed := Trim(s);
    var r := TitleCase(Some(s));
    TitleCaseCaseOnly(s);
    TrimSpec(s);
    TrimCaseVariant(r, trimmed);
    LowerOfCaseVariant(r, trimmed);
    assert Lower(Trim(r)) == Lower(trimmed);
  }

  /** The word rule on a few words. */
  lemma WordRuleExamples()
    ensures WordRule("of") == "of" && WordRule("the") == "the"
    ensures WordRule("iii") == "III"
    ensures WordRule("shadow") == "Shadow"
  {
    assert UpperChar('s') == 'S';
    assert "shadow" !in ["i", "ii", "iii", "iv", "v"];
  }

  /**
   * A chunk that opens with punctuation is rewritten from its first word
   * character to its end, so `(iv)` is not the numeral `iv` and only gets
   * its first letter upper-cased.
   */
  lemma ChunkExamples()
    ensures RewriteChunk("(iv)") == "(Iv)"
    ensures RewriteChunk("x-ray") == "X-ray"
  {
    assert FirstWordIndex("(iv)") == 1;
    assert "(iv)"[1..] == "iv)";
    assert UpperChar('i') == 'I' && UpperChar('x') == 'X';
    assert "iv)" !in ["i", "ii", "iii", "iv", "v"];
    assert "x-ray" !in ["i", "ii", "iii", "iv", "v"];
    assert WordRule("iv)") == "Iv)";
    assert FirstWordIndex("x-ray") == 0;
  }

  /** A single lower-case word is title-cased by the word rule alone. */
  lemma TitleCaseOneWord(s: string)
    requires s != [] && forall i :: 0 <= i < |s| ==> 'a' <= s[i] <= 'z'
    ensures TitleCase(Some(s)) == WordRule(s)
  {
    TrimNoop(s);
    assert Lower(s) == s;
    ReplaceWordsMatch(s, []);
    assert s + [] == s;
  }
}
