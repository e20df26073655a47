/** The string operations the estimators rely on: ASCII `str.lower()`, the
    substring test `pat in text`, `str.isspace()`, the word characters of `\w`,
    the word runs that `re.findall(r"\w+", s)` returns, and a word-bounded
    literal search standing for `re.search(r"\blit\b", s)`. */
module Text {

  predicate IsUpper(c: char)
  {
    'A' <= c <= 'Z'
  }

  function LowerChar(c: char): (d: char)
    ensures !IsUpper(d)
    ensures IsUpper(c) ==> d as int == c as int + 32
    ensures !IsUpper(c) ==> d == c
  {
    if IsUpper(c) then (c as int + 32) as char else c
  }

  /** `s.lower()` on the ASCII letters; every other character is kept. */
  function Lower(s: string): (r: string)
    ensures |r| == |s|
    ensures forall i :: 0 <= i < |s| ==> r[i] == LowerChar(s[i])
  {
    seq(|s|, i requires 0 <= i < |s| => LowerChar(s[i]))
  }

  predicate IsLower(c: char)
  {
    'a' <= c <= 'z'
  }

  /** `s.upper()` on the ASCII letters; every other character is kept. */
  function Upper(s: string): (r: string)
    ensures |r| == |s|
    ensures forall i :: 0 <= i < |s| ==> r[i] == if IsLower(s[i]) then (s[i] as int - 32) as char else s[i]
  {
    seq(|s|, i requires 0 <= i < |s| => if IsLower(s[i]) then (s[i] as int - 32) as char else s[i])
  }

  /** Lower-casing changes nothing in a string without upper-case letters. */
  lemma LowerKeepsLowercase(s: string)
    requires forall i :: 0 <= i < |s| ==> !IsUpper(s[i])
    ensures Lower(s) == s
  {
  }

  lemma LowerHasNoUpper(s: string, c: char)
    requires c in Lower(s)
    ensures !IsUpper(c)
  {
  }

  /** `pat in text` for strings: `pat` occurs as a contiguous block of `text`. */
  predicate Contains(text: string, pat: string)
    decreases |text|
  {
    pat <= text || (text != [] && Contains(text[1..], pat))
  }

  /** Every character of a contained pattern is a character of the text. */
  lemma {:induction false} ContainsChars(text: string, pat: string, k: nat)
    requires Contains(text, pat)
    requires k < |pat|
    ensures pat[k] in text
    decreases |text|
  {
    if pat <= text {
      assert text[k] == pat[k];
    } else {
      ContainsChars(text[1..], pat, k);
      assert text[1..] <= text[1..];
    }
  }

  /** A pattern with a character the text lacks does not occur in it. */
  lemma MissingCharExcludes(text: string, pat: string, k: nat)
    requires k < |pat| && pat[k] !in text
    ensures !Contains(text, pat)
  {
    if Contains(text, pat) {
      ContainsChars(text, pat, k);
    }
  }

  /** No lower-cased string contains a pattern that has an upper-case letter. */
  lemma LowerNeverContainsUpper(s: string, pat: string, k: nat)
    requires k < |pat| && IsUpper(pat[k])
    ensures !Contains(Lower(s), pat)
  {
    if Contains(Lower(s), pat) {
      ContainsChars(Lower(s), pat, k);
      LowerHasNoUpper(s, pat[k]);
    }
  }

  /** Every character of every word is a character of the text. */
  lemma {:induction false} WordCharsFromText(s: string, k: nat, j: nat)
    requires k < |Words(s)| && j < |Words(s)[k]|
    ensures Words(s)[k][j] in s
    decreases |s|
  {
    if !IsWordChar(s[0]) {
      WordCharsFromText(s[1..], k, j);
      assert s[1..][..] == s[1..];
    } else {
      var n := RunLength(s);
      if k == 0 {
        assert Words(s)[0] == s[..n];
        assert s[..n][j] == s[j];
      } else {
        assert Words(s)[k] == Words(s[n..])[k - 1];
        WordCharsFromText(s[n..], k - 1, j);
        assert forall c :: c in s[n..] ==> c in s;
      }
    }
  }

  /** `c.isspace()` for the ASCII and Latin-1 whitespace characters. */
  predicate IsSpace(c: char)
  {
    c == ' ' || c == '\t' || c == '\n' || c == '\r' || c == '\U{000B}' || c == '\U{000C}'
    || c == '\U{001C}' || c == '\U{001D}' || c == '\U{001E}' || c == '\U{001F}'
    || c == '\U{0085}' || c == '\U{00A0}'
  }

  /** `not s or not s.strip()`: the string is empty or made of whitespace only. */
  predicate IsBlank(s: string)
  {
    forall i :: 0 <= i < |s| ==> IsSpace(s[i])
  }

  /** A character matched by `\w` (ASCII letters, digits and underscore). */
  predicate IsWordChar(c: char)
  {
    'a' <= c <= 'z' || 'A' <= c <= 'Z' || '0' <= c <= '9' || c == '_'
  }

  /** Length of the run of word characters that starts `s`. */
  function RunLength(s: string): (n: nat)
    ensures n <= |s|
    ensures forall i :: 0 <= i < n ==> IsWordChar(s[i])
    ensures n == |s| || !IsWordChar(s[n])
  {
    if s == [] || !IsWordChar(s[0]) then 0 else 1 + RunLength(s[1..])
  }

  /** `re.findall(r"\w+", s)`: the maximal runs of word characters, left to right. */
  function Words(s: string): (ws: seq<string>)
    ensures forall k :: 0 <= k < |ws| ==> ws[k] != []
    decreases |s|
  {
    if s == [] then []
    else if !IsWordChar(s[0]) then Words(s[1..])
    else
      var n := RunLength(s);
      [s[..n]] + Words(s[n..])
  }

  /** Number of words of `ws` that belong to `alternatives`: what `re.findall`
      counts for a whole-word alternation `\b(a|b|...)\b` whose alternatives are
      made of word characters, since each of its matches is a maximal word run. */
  function CountIn(ws: seq<string>, alternatives: set<string>): (n: nat)
    ensures n <= |ws|
  {
    if ws == [] then 0
    else (if ws[0] in alternatives then 1 else 0) + CountIn(ws[1..], alternatives)
  }

  /** `lit` occurs at index `i` of `s` with a word boundary before it and, when
      `endBoundary` holds, a word boundary after it. For a literal that begins and
      ends with word characters this is where `\blit\b` (or `\blit`) matches. */
  predicate MatchAt(s: string, lit: string, i: int, endBoundary: bool)
  {
    && 0 <= i && i + |lit| <= |s| && s[i..i + |lit|] == lit
    && (i == 0 || !IsWordChar(s[i - 1]))
    && (!endBoundary || i + |lit| == |s| || !IsWordChar(s[i + |lit|]))
  }

  /** `re.search` for a word-bounded literal succeeds somewhere in `s`. */
  predicate SearchWord(s: string, lit: string, endBoundary: bool)
  {
    exists i | 0 <= i <= |s| :: MatchAt(s, lit, i, endBoundary)
  }
}
