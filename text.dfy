/**
 * The parts of Python's `str` that the modelled code relies on: whitespace
 * (as `str.isspace` defines it), `strip`, `rstrip`, `lower`, `split`,
 * `' '.join`, `capitalize`, `in` on strings and `startswith`.
 */
module Text {

  /** The characters Python's `str.isspace()`, `str.strip()`, `str.split()` and `\s` treat as whitespace. */
  predicate IsSpace(c: char) {
    || c == ' '
    || ('\t' <= c <= '\r')
    || ('\U{1c}' <= c <= '\U{1f}')
    || c == '\U{85}' || c == '\U{a0}' || c == '\U{1680}'
    || ('\U{2000}' <= c <= '\U{200a}')
    || c == '\U{2028}' || c == '\U{2029}' || c == '\U{202f}' || c == '\U{205f}' || c == '\U{3000}'
  }

  predicate IsDigit(c: char) { '0' <= c <= '9' }

  /** `[A-Z]` in a regular expression without the IGNORECASE flag. */
  predicate IsAsciiUpper(c: char) { 'A' <= c <= 'Z' }

  /** Upper-case letters that `LowerChar` maps: ASCII and the Latin-1 block (without the multiplication sign). */
  predicate IsUpperLetter(c: char) {
    IsAsciiUpper(c) || ('\U{c0}' <= c <= '\U{de}' && c != '\U{d7}')
  }

  /** Lower-case letters that `UpperChar` maps: ASCII and the Latin-1 block (without the division sign, sharp s and y-diaeresis). */
  predicate IsLowerLetter(c: char) {
    ('a' <= c <= 'z') || ('\U{e0}' <= c <= '\U{fe}' && c != '\U{f7}')
  }

  function LowerChar(c: char): (r: char)
    ensures IsUpperLetter(c) ==> IsLowerLetter(r)
    ensures !IsUpperLetter(r)
    ensures !IsUpperLetter(c) ==> r == c
    ensures IsSpace(r) <==> IsSpace(c)
  {
    if IsUpperLetter(c) then (c as int + 32) as char else c
  }

  function UpperChar(c: char): (r: char)
    ensures IsLowerLetter(c) ==> IsUpperLetter(r)
    ensures !IsLowerLetter(r)
    ensures !IsLowerLetter(c) ==> r == c
    ensures IsSpace(r) <==> IsSpace(c)
  {
    if IsLowerLetter(c) then (c as int - 32) as char else c
  }

  /** `s.lower()` */
  function Lower(s: string): (r: string)
    ensures |r| == |s|
    ensures forall i :: 0 <= i < |s| ==> r[i] == LowerChar(s[i])
  {
    seq(|s|, i requires 0 <= i < |s| => LowerChar(s[i]))
  }

  /** `sub in s` */
  predicate Contains(s: string, sub: string) {
    exists i | 0 <= i <= |s| - |sub| :: OccursAt(s, sub, i)
  }

  predicate OccursAt(s: string, sub: string, i: nat) {
    i + |sub| <= |s| && s[i..i + |sub|] == sub
  }

  /** `s.startswith(prefix)` */
  predicate StartsWith(s: string, prefix: string) {
    |prefix| <= |s| && s[..|prefix|] == prefix
  }

  predicate AllSpace(s: string) {
    forall i :: 0 <= i < |s| ==> IsSpace(s[i])
  }

  /** `s.lstrip()` */
  function LStrip(s: string): string {
    if |s| > 0 && IsSpace(s[0]) then LStrip(s[1..]) else s
  }

  /** `s.rstrip()` */
  function RStrip(s: string): string {
    if |s| > 0 && IsSpace(s[|s| - 1]) then RStrip(s[..|s| - 1]) else s
  }

  /** `lstrip()` removes the leading whitespace and nothing else. */
  lemma {:induction false} LStripFacts(s: string)
    ensures var r := LStrip(s);
      |r| <= |s| && s[|s| - |r|..] == r && (r == [] || !IsSpace(r[0]))
      && forall k :: 0 <= k < |s| - |r| ==> IsSpace(s[k])
  {
    if |s| > 0 && IsSpace(s[0]) {
      LStripFacts(s[1..]);
    }
  }

  /** `rstrip()` removes the trailing whitespace and nothing else. */
  lemma {:induction false} RStripFacts(s: string)
    ensures var r := RStrip(s);
      |r| <= |s| && s[..|r|] == r && (r == [] || !IsSpace(r[|r| - 1]))
      && forall k :: |r| <= k < |s| ==> IsSpace(s[k])
  {
    if |s| > 0 && IsSpace(s[|s| - 1]) {
      RStripFacts(s[..|s| - 1]);
    }
  }

  /** `r` is `s[i..i + |r|]` and everything of `s` around it is whitespace. */
  predicate StrippedAt(s: string, r: string, i: int) {
    && 0 <= i <= |s| - |r| && r == s[i..i + |r|]
    && (forall k :: 0 <= k < i ==> IsSpace(s[k]))
    && (forall k :: i + |r| <= k < |s| ==> IsSpace(s[k]))
  }

  /** `s.strip()` */
  function Strip(s: string): string {
    RStrip(LStrip(s))
  }

  /**
   * `s` is some whitespace, then `Strip(s)`, then some whitespace; the result
   * neither starts nor ends with whitespace, and is empty exactly for blank text.
   */
  lemma StripFacts(s: string)
    ensures exists i :: StrippedAt(s, Strip(s), i)
    ensures var r := Strip(s); r == [] || (!IsSpace(r[0]) && !IsSpace(r[|r| - 1]))
    ensures Strip(s) == [] <==> AllSpace(s)
  {
    var l := LStrip(s);
    var r := RStrip(l);
    var i := |s| - |l|;
    LStripFacts(s);
    RStripFacts(l);
    StripSlice(s, l, r);
    StripTail(s, l, r);
    assert Strip(s) == r;
    assert StrippedAt(s, Strip(s), i);
    if r == [] {
      assert l == [];
    } else {
      assert r[0] == l[0];
      assert !IsSpace(s[i]);
    }
  }

  /** Leading whitespace of `a + b` is taken from `a` first: unless `a` is blank, all of `b` is kept. */
  lemma {:induction false} LStripAppend(a: string, b: string)
    ensures !AllSpace(a) ==> LStrip(a + b) == LStrip(a) + b
    ensures AllSpace(a) ==> LStrip(a + b) == LStrip(b)
  {
    if a == [] {
      assert a + b == b;
    } else {
      assert (a + b)[0] == a[0];
      assert (a + b)[1..] == a[1..] + b;
      if IsSpace(a[0]) {
        LStripAppend(a[1..], b);
        assert AllSpace(a) <==> AllSpace(a[1..]) by {
          if AllSpace(a[1..]) {
            forall i | 0 <= i < |a| ensures IsSpace(a[i]) {
              if i > 0 { assert a[i] == a[1..][i - 1]; }
            }
          }
        }
      }
    }
  }

  /** Text that does not end in whitespace is its own `rstrip()`. */
  lemma RStripPlain(s: string)
    requires s == [] || !IsSpace(s[|s| - 1])
    ensures RStrip(s) == s
  {
  }

  /**
   * `f"{desc}\n{line}".strip()` for a line with no whitespace at either end:
   * the line alone when `desc` is blank, otherwise `desc` without its leading
   * whitespace, a newline and the line.
   */
  lemma StripAppendedLine(desc: string, line: string)
    requires line != [] && !IsSpace(line[0]) && !IsSpace(line[|line| - 1])
    ensures Strip(desc + "\n" + line) == if AllSpace(desc) then line else LStrip(desc) + "\n" + line
  {
    var tail := "\n" + line;
    assert desc + "\n" + line == desc + tail;
    LStripAppend(desc, tail);
    if AllSpace(desc) {
      assert tail[1..] == line;
      assert LStrip(tail) == LStrip(line) == line;
      RStripPlain(line);
    } else {
      var d := LStrip(desc) + tail;
      assert d[|d| - 1] == line[|line| - 1];
      RStripPlain(d);
      assert d == LStrip(desc) + "\n" + line;
    }
  }

  /** Text that starts with `sub` still contains it after anything is put in front. */
  lemma ContainsStart(front: string, s: string, sub: string)
    requires StartsWith(s, sub)
    ensures Contains(front + s, sub)
  {
    var t := front + s;
    assert t[|front|..|front| + |sub|] == s[..|sub|];
    assert OccursAt(t, sub, |front|);
  }

  lemma StripSlice(s: string, l: string, r: string)
    requires |l| <= |s| && s[|s| - |l|..] == l
    requires |r| <= |l| && l[..|r|] == r
    ensures var i := |s| - |l|; r == s[i..i + |r|]
  {
    var i := |s| - |l|;
    forall k | 0 <= k < |r| ensures r[k] == s[i + k] {
      assert r[k] == l[k];
    }
  }

  lemma StripTail(s: string, l: string, r: string)
    requires |l| <= |s| && s[|s| - |l|..] == l
    requires |r| <= |l| && forall k :: |r| <= k < |l| ==> IsSpace(l[k])
    ensures var i := |s| - |l|; forall k :: i + |r| <= k < |s| ==> IsSpace(s[k])
  {
    var i := |s| - |l|;
    forall k | i + |r| <= k < |s| ensures IsSpace(s[k]) {
      var j := k - i;
      assert IsSpace(l[j]);
      assert l[j] == s[|s| - |l|..][j];
    }
  }

  /** `s.rstrip(c)` for one character `c`. */
  function RStripChar(s: string, c: char): (r: string)
    ensures |r| <= |s| && s[..|r|] == r
    ensures forall k :: |r| <= k < |s| ==> s[k] == c
    ensures r == [] || r[|r| - 1] != c
  {
    if |s| > 0 && s[|s| - 1] == c then RStripChar(s[..|s| - 1], c) else s
  }

  /** `s.split(sep)` for one separator character. */
  function Split(s: string, sep: char): seq<string> {
    if |s| == 0 then [""]
    else
      var rest := Split(s[1..], sep);
      if s[0] == sep then [""] + rest
      else [[s[0]] + rest[0]] + rest[1..]
  }

  /** `split` never gives an empty list, and no part holds the separator. */
  lemma {:induction false} SplitFacts(s: string, sep: char)
    ensures var parts := Split(s, sep); |parts| >= 1 && forall k :: 0 <= k < |parts| ==> sep !in parts[k]
  {
    if |s| > 0 {
      SplitFacts(s[1..], sep);
    }
  }

  /** The first field is the text up to the first separator, or all of `s` when there is none. */
  lemma {:induction false} SplitFirst(s: string, sep: char)
    ensures var p := Split(s, sep)[0]; |p| <= |s| && s[..|p|] == p && (|p| == |s| || s[|p|] == sep)
  {
    if |s| > 0 && s[0] != sep {
      SplitFirst(s[1..], sep);
    }
  }

  /** A field without separators, then a separator: the field comes first and the rest splits on its own. */
  lemma {:induction false} SplitAfterField(a: string, t: string, sep: char)
    requires sep !in a
    ensures Split(a + [sep] + t, sep) == [a] + Split(t, sep)
  {
    if a == [] {
      assert a + [sep] + t == [sep] + t;
      assert ([sep] + t)[1..] == t;
    } else {
      SplitAfterField(a[1..], t, sep);
      assert (a + [sep] + t)[1..] == a[1..] + [sep] + t;
      assert [a[0]] + a[1..] == a;
    }
  }

  /** `sep.join(parts)` for a one-character separator. */
  function JoinWith(parts: seq<string>, sep: char): string {
    if |parts| == 0 then ""
    else if |parts| == 1 then parts[0]
    else parts[0] + [sep] + JoinWith(parts[1..], sep)
  }

  /** Splitting and joining back with the same separator gives the text back. */
  lemma {:induction false} JoinSplit(s: string, sep: char)
    ensures JoinWith(Split(s, sep), sep) == s
  {
    if |s| > 0 {
      JoinSplit(s[1..], sep);
      var rest := Split(s[1..], sep);
      if s[0] != sep && |rest| > 1 {
        assert ([[s[0]] + rest[0]] + rest[1..])[1..] == rest[1..];
      }
    }
  }

  /** `s.lstrip(chars)` */
  function LStripChars(s: string, chars: set<char>): string {
    if |s| > 0 && s[0] in chars then LStripChars(s[1..], chars) else s
  }

  /** `s.rstrip(chars)` */
  function RStripChars(s: string, chars: set<char>): string {
    if |s| > 0 && s[|s| - 1] in chars then RStripChars(s[..|s| - 1], chars) else s
  }

  /** `s.strip(chars)` */
  function StripChars(s: string, chars: set<char>): string {
    RStripChars(LStripChars(s, chars), chars)
  }

  /** `lstrip(chars)` removes a prefix made of `chars` and stops at the first character that is not one of them. */
  lemma {:induction false} LStripCharsFacts(s: string, chars: set<char>)
    ensures var r := LStripChars(s, chars);
      |r| <= |s| && s[|s| - |r|..] == r && (r == [] || r[0] !in chars)
      && forall k :: 0 <= k < |s| - |r| ==> s[k] in chars
  {
    if |s| > 0 && s[0] in chars {
      LStripCharsFacts(s[1..], chars);
    }
  }

  /** `rstrip(chars)` removes a suffix made of `chars` and stops at the last character that is not one of them. */
  lemma {:induction false} RStripCharsFacts(s: string, chars: set<char>)
    ensures var r := RStripChars(s, chars);
      |r| <= |s| && s[..|r|] == r && (r == [] || r[|r| - 1] !in chars)
      && forall k :: |r| <= k < |s| ==> s[k] in chars
  {
    if |s| > 0 && s[|s| - 1] in chars {
      RStripCharsFacts(s[..|s| - 1], chars);
    }
  }

  /** `s.strip(chars)` is no longer than `s`, and neither of its ends is one of `chars`. */
  lemma StripCharsFacts(s: string, chars: set<char>)
    ensures var r := StripChars(s, chars);
      |r| <= |s| && (r == [] || (r[0] !in chars && r[|r| - 1] !in chars))
  {
    var l := LStripChars(s, chars);
    LStripCharsFacts(s, chars);
    RStripCharsFacts(l, chars);
    var r := RStripChars(l, chars);
    assert r == [] || r[0] == l[0];
  }

  /** The longest prefix of `s` without whitespace. */
  function WordPrefix(s: string): (w: string)
    ensures |w| <= |s| && s[..|w|] == w
    ensures forall i :: 0 <= i < |w| ==> !IsSpace(w[i])
    ensures |w| == |s| || IsSpace(s[|w|])
  {
    if |s| == 0 || IsSpace(s[0]) then "" else [s[0]] + WordPrefix(s[1..])
  }

  predicate IsWord(w: string) {
    w != [] && forall i :: 0 <= i < |w| ==> !IsSpace(w[i])
  }

  /** `s.split()` with no argument: the maximal runs of non-whitespace, in order. */
  function Words(s: string): (ws: seq<string>)
    ensures forall k :: 0 <= k < |ws| ==> IsWord(ws[k])
    decreases |s|
  {
    if |s| == 0 then []
    else if IsSpace(s[0]) then Words(s[1..])
    else
      var w := WordPrefix(s);
      [w] + Words(s[|w|..])
  }

  /** `' '.join(words)` */
  function JoinSpace(words: seq<string>): string {
    JoinWith(words, ' ')
  }

  lemma {:induction false} WordsOfWordThenSpace(w: string, rest: string)
    requires IsWord(w)
    ensures Words(w + " " + rest) == [w] + Words(rest)
  {
    var s := w + " " + rest;
    assert s == w + (" " + rest);
    WordPrefixOfWord(w, " " + rest);
    assert s[0] == w[0] && !IsSpace(s[0]);
    assert s[|w|..] == " " + rest;
    assert (" " + rest)[1..] == rest;
    assert Words(" " + rest) == Words(rest);
  }

  lemma {:induction false} WordPrefixOfWord(w: string, rest: string)
    requires IsWord(w)
    requires rest == [] || IsSpace(rest[0])
    ensures WordPrefix(w + rest) == w
  {
    if |w| > 1 {
      assert (w + rest)[1..] == w[1..] + rest;
      WordPrefixOfWord(w[1..], rest);
    } else {
      assert (w + rest)[1..] == rest;
    }
  }

  /** Joining words with single spaces and splitting again gives the same words. */
  lemma {:induction false} WordsJoinSpace(ws: seq<string>)
    requires forall k :: 0 <= k < |ws| ==> IsWord(ws[k])
    ensures Words(JoinSpace(ws)) == ws
  {
    if |ws| == 1 {
      var w := ws[0];
      assert w + "" == w;
      WordPrefixOfWord(w, "");
      assert w[0] == w[0] && !IsSpace(w[0]);
      assert w[|w|..] == "";
      assert Words(w) == [w] + Words("");
    } else if |ws| > 1 {
      WordsJoinSpace(ws[1..]);
      assert JoinSpace(ws) == ws[0] + " " + JoinSpace(ws[1..]);
      WordsOfWordThenSpace(ws[0], JoinSpace(ws[1..]));
    }
  }

  /** A single-space joined list of words has no leading, trailing or doubled whitespace. */
  lemma {:induction false} JoinSpaceShape(ws: seq<string>)
    requires forall k :: 0 <= k < |ws| ==> IsWord(ws[k])
    ensures var s := JoinSpace(ws);
      (s == [] || (!IsSpace(s[0]) && !IsSpace(s[|s| - 1])))
      && (forall i :: 0 <= i < |s| && IsSpace(s[i]) ==> s[i] == ' ')
      && (forall i :: 0 <= i < |s| - 1 ==> !(IsSpace(s[i]) && IsSpace(s[i + 1])))
  {
    if |ws| > 1 {
      JoinSpaceShape(ws[1..]);
      var t := JoinSpace(ws[1..]);
      assert t != [] by { assert |t| >= |ws[1]| by { JoinLength(ws[1..]); } }
      var s := ws[0] + " " + t;
      assert JoinSpace(ws) == s;
      forall i | 0 <= i < |s| - 1 ensures !(IsSpace(s[i]) && IsSpace(s[i + 1])) {
        if i < |ws[0]| - 1 {
        } else if i == |ws[0]| - 1 {
        } else if i == |ws[0]| {
          assert s[i + 1] == t[0];
        } else {
          assert s[i] == t[i - |ws[0]| - 1] && s[i + 1] == t[i + 1 - |ws[0]| - 1];
        }
      }
      forall i | 0 <= i < |s| && IsSpace(s[i]) ensures s[i] == ' ' {
        if i > |ws[0]| { assert s[i] == t[i - |ws[0]| - 1]; }
      }
      assert s[|s| - 1] == t[|t| - 1];
    }
  }

  lemma {:induction false} JoinLength(ws: seq<string>)
    requires |ws| >= 1
    ensures |JoinSpace(ws)| >= |ws[0]|
  {
    if |ws| > 1 { JoinLength(ws[1..]); }
  }

  /** `w.capitalize()`: first character upper case, the others lower case. */
  function Capitalize(w: string): (r: string)
    ensures |r| == |w|
    ensures w != [] ==> r[0] == UpperChar(w[0])
    ensures forall i :: 1 <= i < |w| ==> r[i] == LowerChar(w[i])
  {
    if w == [] then [] else [UpperChar(w[0])] + Lower(w[1..])
  }

  predicate IsCapitalized(w: string) {
    w != [] && !IsLowerLetter(w[0]) && forall i :: 1 <= i < |w| ==> !IsUpperLetter(w[i])
  }
}
