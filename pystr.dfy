/**
 * The parts of Python's `str` that the plugins rely on, as Dafny functions over
 * `seq<char>` (a Dafny `char` is a Unicode scalar value, so `|s|` is Python's `len(s)`):
 * whitespace, `strip`, `rstrip(c)`, `split()`, `split(c)`, `in`, `endswith`,
 * `replace`, `lower`, `isdigit` and `str(int)`.
 */
module PyStr {

  /** Python's `str.isspace` for one character (the full set Python treats as whitespace). */
  predicate IsSpace(c: char) {
    || c == ' '
    || ('\t' <= c <= '\r')
    || ('\U{1C}' <= c <= '\U{1F}')
    || c == '\U{85}' || c == '\U{A0}' || c == '\U{1680}'
    || ('\U{2000}' <= c <= '\U{200A}')
    || c == '\U{2028}' || c == '\U{2029}' || c == '\U{202F}' || c == '\U{205F}' || c == '\U{3000}'
  }

  /** Every character is whitespace (true of the empty string). */
  predicate AllSpace(s: string) {
    forall i :: 0 <= i < |s| ==> IsSpace(s[i])
  }

  /** A non-empty run of non-whitespace characters: what `str.split()` yields. */
  predicate IsToken(s: string) {
    s != [] && forall i :: 0 <= i < |s| ==> !IsSpace(s[i])
  }

  /** `s.lstrip()`: the suffix left after dropping leading whitespace. */
  function LStrip(s: string): (r: string)
    ensures |r| <= |s| && r == s[|s| - |r|..]
    ensures forall i :: 0 <= i < |s| - |r| ==> IsSpace(s[i])
    ensures r != [] ==> !IsSpace(r[0])
  {
    if s != [] && IsSpace(s[0]) then LStrip(s[1..]) else s
  }

  /** `s.rstrip()`: the prefix left after dropping trailing whitespace. */
  function RStrip(s: string): (r: string)
    ensures |r| <= |s| && r == s[..|r|]
    ensures forall i :: |r| <= i < |s| ==> IsSpace(s[i])
    ensures r != [] ==> !IsSpace(r[|r| - 1])
  {
    if s != [] && IsSpace(s[|s| - 1]) then RStrip(s[..|s| - 1]) else s
  }

  /** `s.strip()`: it is empty exactly when `s` is empty or all whitespace, and it
      leaves alone a string that neither starts nor ends with whitespace. */
  function Strip(s: string): (r: string)
    ensures |r| <= |s|
    ensures r == [] <==> AllSpace(s)
    ensures r != [] ==> !IsSpace(r[0]) && !IsSpace(r[|r| - 1])
    ensures (s == [] || (!IsSpace(s[0]) && !IsSpace(s[|s| - 1]))) ==> r == s
  {
    var l := LStrip(s);
    var r := RStrip(l);
    assert r == [] <==> AllSpace(s) by {
      if l != [] {
        assert s[|s| - |l|] == l[0];
        assert !IsSpace(l[0]);
      }
    }
    assert r != [] ==> r[0] == l[0];
    assert (s == [] || (!IsSpace(s[0]) && !IsSpace(s[|s| - 1]))) ==> r == s by {
      if s != [] && !IsSpace(s[0]) && !IsSpace(s[|s| - 1]) {
        assert l == s;
      }
    }
    r
  }

  /** `not s or not s.strip()`: the text is empty or only whitespace. */
  predicate IsBlank(s: string) {
    s == [] || Strip(s) == []
  }

  /** `s.rstrip(c)`: drop every trailing copy of `c`. */
  function RStripChar(s: string, c: char): (r: string)
    ensures |r| <= |s| && r == s[..|r|]
    ensures forall i :: |r| <= i < |s| ==> s[i] == c
    ensures r == [] || r[|r| - 1] != c
  {
    if s != [] && s[|s| - 1] == c then RStripChar(s[..|s| - 1], c) else s
  }

  /** The length of the leading run of non-whitespace characters. */
  function WordLen(s: string): (n: nat)
    ensures n <= |s|
    ensures forall i :: 0 <= i < n ==> !IsSpace(s[i])
    ensures n < |s| ==> IsSpace(s[n])
  {
    if s == [] || IsSpace(s[0]) then 0 else 1 + WordLen(s[1..])
  }

  /** `s.split()`: the maximal runs of non-whitespace, in order. */
  function Split(s: string): (r: seq<string>)
    decreases |s|
  {
    var t := LStrip(s);
    if t == [] then [] else
    var n := WordLen(t);
    LStripNonEmpty(s);
    [t[..n]] + Split(t[n..])
  }

  /** `split()` yields no word exactly when the text is blank. */
  lemma SplitEmpty(s: string)
    ensures Split(s) == [] <==> AllSpace(s)
  {
    if LStrip(s) == [] {
      LStripEmpty(s);
    } else {
      LStripNonEmpty(s);
    }
  }

  /** Every word of `ws` is a token. */
  predicate AllTokens(ws: seq<string>) {
    forall k :: 0 <= k < |ws| ==> IsToken(ws[k])
  }

  /** Every word `split()` yields is a token. */
  lemma SplitTokens(s: string)
    ensures forall k :: 0 <= k < |Split(s)| ==> IsToken(Split(s)[k])
  {
    SplitAllTokens(s);
  }

  /** `split()` yields tokens only, by induction on the text. */
  lemma {:induction false} SplitAllTokens(s: string)
    ensures AllTokens(Split(s))
    decreases |s|
  {
    if Split(s) != [] {
      SplitUnfold(s);
      var t := LStrip(s);
      var n := WordLen(t);
      HeadWordToken(t);
      SplitAllTokens(t[n..]);
      ConsTokens(t[..n], Split(t[n..]));
    }
  }

  /** A token in front of tokens gives tokens. */
  lemma ConsTokens(w: string, ws: seq<string>)
    requires IsToken(w) && AllTokens(ws)
    ensures AllTokens([w] + ws)
  {
    var r := [w] + ws;
    forall k | 0 <= k < |r| ensures IsToken(r[k]) {
      if k > 0 {
        assert r[k] == ws[k - 1];
      }
    }
  }

  /** One step of `split()` on text that is not blank: its first word, then the rest. */
  lemma SplitUnfold(s: string)
    requires Split(s) != []
    ensures LStrip(s) != [] && !IsSpace(LStrip(s)[0]) && WordLen(LStrip(s)) > 0
    ensures Split(s) == [LStrip(s)[..WordLen(LStrip(s))]] + Split(LStrip(s)[WordLen(LStrip(s))..])
  {
    LStripNonEmpty(s);
  }

  /** The run of non-whitespace at the head of text that starts with one is a token. */
  lemma HeadWordToken(t: string)
    requires t != [] && !IsSpace(t[0])
    ensures IsToken(t[..WordLen(t)])
  {
    var w := t[..WordLen(t)];
    forall i | 0 <= i < |w| ensures !IsSpace(w[i]) {
      assert w[i] == t[i];
    }
  }

  /** Nothing is left after dropping leading whitespace only from blank text. */
  lemma LStripEmpty(s: string)
    requires LStrip(s) == []
    ensures AllSpace(s)
  {
  }

  /** Text with a non-space character keeps a leading word after `lstrip`. */
  lemma LStripNonEmpty(s: string)
    requires LStrip(s) != []
    ensures !AllSpace(s) && WordLen(LStrip(s)) > 0
  {
    var t := LStrip(s);
    assert s[|s| - |t|] == t[0];
  }

  /** The length of the leading run of characters other than `sep`. */
  function SegmentLen(s: string, sep: char): (n: nat)
    ensures n <= |s|
    ensures forall i :: 0 <= i < n ==> s[i] != sep
    ensures n < |s| ==> s[n] == sep
  {
    if s == [] || s[0] == sep then 0 else 1 + SegmentLen(s[1..], sep)
  }

  /** `s.split(sep)` for a one-character separator: the pieces between separators,
      never an empty list, and no piece contains the separator. */
  function SplitOn(s: string, sep: char): (r: seq<string>)
    ensures |r| >= 1
    ensures forall k :: 0 <= k < |r| ==> sep !in r[k]
    decreases |s|
  {
    var n := SegmentLen(s, sep);
    if n == |s| then [s] else [s[..n]] + SplitOn(s[n + 1..], sep)
  }

  /** Python's `sub in s`. */
  predicate Contains(s: string, sub: string)
    decreases |s|
  {
    sub <= s || (s != [] && Contains(s[1..], sub))
  }

  /** Python's `s.endswith(suffix)`. */
  predicate EndsWith(s: string, suffix: string) {
    |suffix| <= |s| && s[|s| - |suffix|..] == suffix
  }

  /** `s.replace("", rep)`: `rep` before every character and at the end. */
  function Interleave(s: string, rep: string): string {
    if s == [] then rep else rep + [s[0]] + Interleave(s[1..], rep)
  }

  /** `s.replace(pat, rep)`: every non-overlapping occurrence of `pat`, scanned from the
      left, is replaced. A string without `pat` comes back unchanged, and so does any
      string when `rep` equals `pat`. */
  function Replace(s: string, pat: string, rep: string): (r: string)
    ensures pat != [] && !Contains(s, pat) ==> r == s
    ensures pat != [] && rep == pat ==> r == s
    decreases |s|
  {
    if pat == [] then Interleave(s, rep)
    else if pat <= s then rep + Replace(s[|pat|..], pat, rep)
    else if s == [] then []
    else [s[0]] + Replace(s[1..], pat, rep)
  }

  /** Python's `s.isdigit()` for ASCII digits: non-empty and all digits. */
  predicate IsDigits(s: string) {
    s != [] && forall i :: 0 <= i < |s| ==> '0' <= s[i] <= '9'
  }

  /** Python's `c.lower()` for the ASCII letters. */
  function LowerChar(c: char): char {
    if 'A' <= c <= 'Z' then (c as int + 32) as char else c
  }

  /** Python's `s.lower()`, restricted to ASCII letters. */
  function Lower(s: string): string {
    seq(|s|, i requires 0 <= i < |s| => LowerChar(s[i]))
  }

  /** The decimal digit `d`. */
  function DigitChar(d: nat): char
    requires d < 10
  {
    "0123456789"[d]
  }

  /** `str(n)` for a natural number: non-empty and all digits. */
  function NatToStr(n: nat): (r: string)
    ensures IsDigits(r)
  {
    if n < 10 then [DigitChar(n)] else NatToStr(n / 10) + [DigitChar(n % 10)]
  }

  /** `str(i)`: a minus sign for a negative number, never empty. */
  function IntToStr(i: int): (r: string)
    ensures r != []
    ensures IsDigits(r) <==> i >= 0
  {
    if i < 0 then
      var r := "-" + NatToStr(-i);
      assert r[0] == '-';
      r
    else
      NatToStr(i)
  }

  // ---------------------------------------------------------------------
  // Lemmas about `split()` and `in`

  /** Splitting a token followed by a space and more text yields that token first. */
  lemma {:induction false} SplitCons(a: string, rest: string)
    requires IsToken(a)
    ensures Split(a + " " + rest) == [a] + Split(rest)
  {
    var s := a + " " + rest;
    assert s[0] == a[0];
    assert LStrip(s) == s;
    var n := WordLen(s);
    assert s[|a|] == ' ';
    assert forall i :: 0 <= i < |a| ==> s[i] == a[i];
    assert n == |a|;
    assert s[..n] == a;
    assert s[n..] == " " + rest;
    assert LStrip(" " + rest) == LStrip(rest) by {
      assert (" " + rest)[1..] == rest;
    }
  }

  /** A lone token splits to itself. */
  lemma {:induction false} SplitToken(a: string)
    requires IsToken(a)
    ensures Split(a) == [a]
  {
    assert LStrip(a) == a;
    var n := WordLen(a);
    assert n == |a|;
    assert a[..n] == a;
    assert a[n..] == [];
  }

  /** `/keyword param`-style text: two tokens separated by one space split into exactly those two. */
  lemma {:induction false} SplitTwo(a: string, b: string)
    requires IsToken(a) && IsToken(b)
    ensures Split(a + " " + b) == [a, b]
  {
    calc {
      Split(a + " " + b);
    == { SplitCons(a, b); }
      [a] + Split(b);
    == { SplitToken(b); }
      [a] + [b];
    }
  }

  /** A suffix is in particular a substring: the `endswith` tests that follow an `in`
      test for the same text add nothing. */
  lemma {:induction false} EndsWithContains(s: string, suffix: string)
    requires EndsWith(s, suffix)
    ensures Contains(s, suffix)
    decreases |s|
  {
    if |suffix| == |s| {
      assert s[0..] == s;
    } else {
      assert s[1..][|s[1..]| - |suffix|..] == s[|s| - |suffix|..];
      EndsWithContains(s[1..], suffix);
    }
  }

  /** Lower-casing acts character by character, so it distributes over concatenation. */
  lemma LowerAppend(a: string, b: string)
    ensures Lower(a + b) == Lower(a) + Lower(b)
  {
  }

  /** Lower-casing keeps whitespace where it was. */
  lemma LowerKeepsSpace(s: string)
    ensures AllSpace(Lower(s)) <==> AllSpace(s)
  {
    assert forall i :: 0 <= i < |s| ==> (IsSpace(Lower(s)[i]) <==> IsSpace(s[i]));
  }
}
