/** Characters and strings: white space, trimming, case, and the normal form of an address. */
module Text {

  datatype Option<+T> = None | Some(value: T)

  /** White space as Python's `str.strip` and the regular-expression class `\s` see it. */
  predicate IsSpace(c: char) {
    || '\t' <= c <= '\r' || '\U{1C}' <= c <= ' ' || c == '\U{85}' || c == '\U{A0}' || c == '\U{1680}'
    || '\U{2000}' <= c <= '\U{200A}' || c == '\U{2028}' || c == '\U{2029}' || c == '\U{202F}'
    || c == '\U{205F}' || c == '\U{3000}'
  }

  function LowerChar(c: char): char {
    if 'A' <= c <= 'Z' then (c as int + 32) as char else c
  }

  function Lower(s: string): (r: string)
    ensures |r| == |s| && forall i | 0 <= i < |s| :: r[i] == LowerChar(s[i])
  {
    seq(|s|, i requires 0 <= i < |s| => LowerChar(s[i]))
  }

  function Strip(s: string): (r: string)
    ensures r == "" || (!IsSpace(r[0]) && !IsSpace(r[|r| - 1]))
    ensures forall c | c in r :: c in s
  {
    if s == "" then ""
    else if IsSpace(s[0]) then Strip(s[1..])
    else if IsSpace(s[|s| - 1]) then Strip(s[..|s| - 1])
    else s
  }

  /** A text that is absent or empty counts as false. */
  predicate Truthy(s: Option<string>) {
    s.Some? && s.value != ""
  }

  /** `a or b or d` on optional texts. */
  function FirstTruthy(a: Option<string>, b: Option<string>, d: string): (r: string)
    ensures d != "" ==> r != ""
  {
    if Truthy(a) then a.value else if Truthy(b) then b.value else d
  }

  function NormalizeEmail(raw: string): Option<string> {
    var v := Lower(Strip(raw));
    if v == "" || '@' !in v then None else Some(v)
  }

  /** Normalizing is idempotent: a stored key is its own normal form. */
  lemma NormalFormIsStable(raw: string)
    ensures NormalizeEmail(raw).Some? ==> NormalizeEmail(NormalizeEmail(raw).value) == NormalizeEmail(raw)
  {
    var v := Lower(Strip(raw));
    if v != "" {
      assert v[0] == LowerChar(Strip(raw)[0]) && v[|v| - 1] == LowerChar(Strip(raw)[|v| - 1]);
      assert Strip(v) == v;
      assert Lower(v) == v;
    }
  }

  // ----- Trimming and case in plain terms -----

  ghost predicate Blank(s: string, i: nat, j: nat)
    requires i <= j <= |s|
  {
    forall k | i <= k < j :: IsSpace(s[k])
  }

  /** `s[i..j]` is what is left of `s` without the white space around it. */
  ghost predicate Core(s: string, i: nat, j: nat) {
    && i <= j <= |s| && Blank(s, 0, i) && Blank(s, j, |s|)
    && (i < j ==> !IsSpace(s[i]) && !IsSpace(s[j - 1]))
  }

  lemma CoreAfterSpace(s: string, i: nat, j: nat)
    requires s != "" && IsSpace(s[0]) && Core(s[1..], i, j)
    ensures Core(s, i + 1, j + 1) && s[i + 1..j + 1] == s[1..][i..j]
  {
    var a, b := s[i + 1..j + 1], s[1..][i..j];
    assert |a| == |b| && forall k | 0 <= k < |a| :: a[k] == s[i + 1 + k] == s[1..][i + k] == b[k];
    forall k | 1 <= k < i + 1 ensures IsSpace(s[k]) { assert s[k] == s[1..][k - 1]; }
    forall k | j + 1 <= k < |s| ensures IsSpace(s[k]) { assert s[k] == s[1..][k - 1]; }
  }

  lemma CoreBeforeSpace(s: string, i: nat, j: nat)
    requires s != "" && IsSpace(s[|s| - 1]) && Core(s[..|s| - 1], i, j)
    ensures Core(s, i, j) && s[i..j] == s[..|s| - 1][i..j]
  {
    assert s[i..j] == s[..|s| - 1][i..j];
    forall k | j <= k < |s| - 1 ensures IsSpace(s[k]) { assert s[k] == s[..|s| - 1][k]; }
  }

  lemma {:induction false} StripFindsCore(s: string) returns (i: nat, j: nat)
    ensures Core(s, i, j) && Strip(s) == s[i..j]
    decreases |s|
  {
    if s == "" {
      i, j := 0, 0;
    } else if IsSpace(s[0]) {
      var a, b := StripFindsCore(s[1..]);
      CoreAfterSpace(s, a, b);
      i, j := a + 1, b + 1;
    } else if IsSpace(s[|s| - 1]) {
      i, j := StripFindsCore(s[..|s| - 1]);
      CoreBeforeSpace(s, i, j);
    } else {
      i, j := 0, |s|;
    }
  }

  /** Stripping removes the white space around a text and nothing else. */
  lemma StripIsCore(s: string, i: nat, j: nat)
    requires Core(s, i, j)
    ensures Strip(s) == s[i..j]
  {
    var a, b := StripFindsCore(s);
    if i < j && a < b { assert a == i && b == j; }
  }

  /** The same letter, the second being a small one. */
  predicate IsSmallOf(c: char, d: char) {
    c == d || ('A' <= c <= 'Z' && d as int == c as int + 32)
  }

  /** Up to letter case and the white space around it, the text is the word. */
  ghost predicate ReadsAs(s: string, word: string) {
    exists i: nat, j: nat :: Core(s, i, j) && j - i == |word| && forall k | 0 <= k < |word| ::
      IsSmallOf(s[i + k], word[k])
  }

  predicate IsSmallWord(word: string) {
    word != "" && forall k | 0 <= k < |word| :: 'a' <= word[k] <= 'z' || word[k] == '_'
  }

  lemma LowerReads(core: string, word: string)
    requires IsSmallWord(word)
    ensures Lower(core) == word <==> |core| == |word| && forall k | 0 <= k < |word| :: IsSmallOf(core[k], word[k])
  {
    forall k | 0 <= k < |word| && k < |core| ensures LowerChar(core[k]) == word[k] <==> IsSmallOf(core[k], word[k]) {}
    if Lower(core) == word {
      forall k | 0 <= k < |word| ensures IsSmallOf(core[k], word[k]) { assert Lower(core)[k] == word[k]; }
    }
  }

  lemma WordIsRead(s: string, word: string)
    requires IsSmallWord(word)
    ensures Lower(Strip(s)) == word <==> ReadsAs(s, word)
  {
    var i, j := StripFindsCore(s);
    LowerReads(s[i..j], word);
    if Lower(Strip(s)) == word {
      forall k | 0 <= k < |word| ensures IsSmallOf(s[i + k], word[k]) { assert s[i..j][k] == s[i + k]; }
    }
    if ReadsAs(s, word) { ReadWordIsCore(s, word); }
  }

  lemma ReadWordIsCore(s: string, word: string)
    requires IsSmallWord(word) && ReadsAs(s, word)
    ensures Lower(Strip(s)) == word
  {
    var a: nat, b: nat :| Core(s, a, b) && b - a == |word| && forall k | 0 <= k < |word| ::
      IsSmallOf(s[a + k], word[k]);
    StripIsCore(s, a, b);
    forall k | 0 <= k < |word| ensures IsSmallOf(s[a..b][k], word[k]) { assert s[a..b][k] == s[a + k]; }
    LowerReads(s[a..b], word);
  }

  /** The normal form of an address: its core in small letters, if there is an `@` in it. */
  lemma NormalFormOf(raw: string, i: nat, j: nat)
    requires Core(raw, i, j)
    ensures NormalizeEmail(raw).None? <==> '@' !in raw[i..j]
    ensures NormalizeEmail(raw).Some? ==>
              var v := NormalizeEmail(raw).value;
              |v| == j - i && forall k | 0 <= k < |v| :: IsSmallOf(raw[i + k], v[k]) && !('A' <= v[k] <= 'Z')
  {
    StripIsCore(raw, i, j);
    var core := raw[i..j];
    forall k | 0 <= k < |core| ensures Lower(core)[k] == '@' <==> core[k] == '@' {}
    if '@' in core {
      var k :| 0 <= k < |core| && core[k] == '@';
      assert Lower(core)[k] == '@';
    }
  }
}
