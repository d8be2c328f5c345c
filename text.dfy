/** The Python string operations the checkers rely on: whitespace as
    `str.isspace` and the regex class `\s` see it, `str.strip`, `str.lower`,
    `str.startswith`, the `in` substring test, `str.split` word counting,
    `", ".join`, `str(int)`, and the collapse-and-truncate of the text sample. */
module Text {

  /** The code points CPython treats as whitespace (`Py_UNICODE_ISSPACE`):
      `str.isspace`, `str.split`, `str.strip` and the regex class `\s` of a
      `str` pattern all use this set. */
  predicate IsSpace(c: char) {
    var n := c as int;
    if n <= 0x20 then 0x09 <= n <= 0x0D || 0x1C <= n else IsWideSpace(n)
  }

  /** The whitespace code points above the ASCII space. */
  predicate IsWideSpace(n: int) {
    n == 0x85 || n == 0xA0 || n == 0x1680 || (0x2000 <= n <= 0x200A)
    || n == 0x2028 || n == 0x2029 || n == 0x202F || n == 0x205F || n == 0x3000
  }

  predicate AllSpace(s: string) {
    forall i :: 0 <= i < |s| ==> IsSpace(s[i])
  }

  predicate StartsWith(s: string, prefix: string) {
    |prefix| <= |s| && s[..|prefix|] == prefix
  }

  /** `sub in s` */
  predicate Contains(s: string, sub: string)
    decreases |s|
  {
    StartsWith(s, sub) || (s != [] && Contains(s[1..], sub))
  }

  // ---------------------------------------------------------------- strip

  /** `s.lstrip()` */
  function TrimStart(s: string): (r: string)
    ensures |r| <= |s| && r == s[|s| - |r|..]
    ensures AllSpace(s[..|s| - |r|])
    ensures r == [] || !IsSpace(r[0])
  {
    if s != [] && IsSpace(s[0]) then
      var r := TrimStart(s[1..]);
      assert s[..|s| - |r|] == [s[0]] + s[1..][..|s[1..]| - |r|];
      AllSpaceConcat([s[0]], s[1..][..|s[1..]| - |r|]);
      r
    else s
  }

  /** `s.rstrip()` */
  function TrimEnd(s: string): (r: string)
    ensures |r| <= |s| && r == s[..|r|]
    ensures AllSpace(s[|r|..])
    ensures r == [] || !IsSpace(r[|r| - 1])
    ensures r != [] ==> r[0] == s[0]
  {
    if s != [] && IsSpace(s[|s| - 1]) then
      var p := s[..|s| - 1];
      var r := TrimEnd(p);
      assert s[|r|..] == p[|r|..] + [s[|s| - 1]];
      AllSpaceConcat(p[|r|..], [s[|s| - 1]]);
      r
    else s
  }

  /** `s.strip()`: the result is the slice of `s` left when the whitespace at
      both ends is removed, so it neither starts nor ends with whitespace, and
      it is empty exactly when `s` is all whitespace. */
  function Strip(s: string): (r: string)
    ensures exists i :: StripsTo(s, i, r)
    ensures r == [] || (!IsSpace(r[0]) && !IsSpace(r[|r| - 1]))
    ensures r == [] <==> AllSpace(s)
  {
    var a := TrimStart(s);
    var b := TrimEnd(a);
    StripFacts(s, |s| - |a|, a, b);
    b
  }

  /** What the two trims together leave of `s`. */
  lemma {:induction false} StripFacts(s: string, i: nat, a: string, b: string)
    requires i <= |s| && a == s[i..] && AllSpace(s[..i]) && (a == [] || !IsSpace(a[0]))
    requires |b| <= |a| && b == a[..|b|] && AllSpace(a[|b|..])
    requires (b == [] || !IsSpace(b[|b| - 1])) && (b != [] ==> b[0] == a[0])
    ensures StripsTo(s, i, b)
    ensures b == [] || (!IsSpace(b[0]) && !IsSpace(b[|b| - 1]))
    ensures b == [] <==> AllSpace(s)
  {
    StripSlice(s, i, a, b);
    if b == [] {
      AllSpaceConcat(s[..i], a);
    } else {
      NotAllSpace(s, i);
    }
  }

  lemma {:induction false} StripSlice(s: string, i: nat, a: string, b: string)
    requires i <= |s| && a == s[i..] && AllSpace(s[..i])
    requires |b| <= |a| && b == a[..|b|] && AllSpace(a[|b|..])
    ensures StripsTo(s, i, b)
    ensures s == s[..i] + a
    ensures b == [] ==> a == a[|b|..]
    ensures b != [] ==> s[i] == b[0]
  {
    assert s[i..i + |b|] == b;
    assert s[i + |b|..] == a[|b|..];
  }

  lemma {:induction false} NotAllSpace(s: string, i: int)
    requires 0 <= i < |s| && !IsSpace(s[i])
    ensures !AllSpace(s)
  {
  }

  lemma {:induction false} AllSpaceConcat(x: string, y: string)
    requires AllSpace(x) && AllSpace(y)
    ensures AllSpace(x + y)
  {
    forall k | 0 <= k < |x + y| ensures IsSpace((x + y)[k]) {
      if k < |x| { assert (x + y)[k] == x[k]; } else { assert (x + y)[k] == y[k - |x|]; }
    }
  }

  /** `r` is the slice `s[i..i+|r|]` and everything outside it is whitespace. */
  ghost predicate StripsTo(s: string, i: int, r: string) {
    0 <= i && i + |r| <= |s| && r == s[i..i + |r|]
    && AllSpace(s[..i]) && AllSpace(s[i + |r|..])
  }

  // ---------------------------------------------------------------- lower

  /** `s.lower()`, restricted to ASCII letters. */
  function Lower(s: string): (r: string)
    ensures |r| == |s|
    ensures forall i :: 0 <= i < |s| ==> !('A' <= r[i] <= 'Z')
    ensures forall i :: 0 <= i < |s| && !('A' <= s[i] <= 'Z') ==> r[i] == s[i]
    ensures forall i :: 0 <= i < |s| && 'A' <= s[i] <= 'Z' ==> r[i] == (s[i] as int + 32) as char
  {
    seq(|s|, i requires 0 <= i < |s| => LowerChar(s[i]))
  }

  function LowerChar(c: char): char {
    if 'A' <= c <= 'Z' then (c as int + 32) as char else c
  }

  // ---------------------------------------------------------------- join and str(int)

  /** `sep.join(parts)` */
  function Join(sep: string, parts: seq<string>): string {
    if parts == [] then ""
    else if |parts| == 1 then parts[0]
    else parts[0] + sep + Join(sep, parts[1..])
  }

  /** `str(n)` for a non-negative integer: decimal digits with no leading zero,
      whose value is `n`. */
  function NatToString(n: nat): (r: string)
    ensures |r| > 0 && IsDigits(r)
    ensures |r| > 1 ==> r[0] != '0'
    ensures DigitsValue(r) == n
  {
    if n < 10 then [Digit(n)]
    else
      var p := NatToString(n / 10);
      var r := p + [Digit(n % 10)];
      assert r[..|r| - 1] == p;
      r
  }

  function Digit(d: nat): (c: char)
    requires d < 10
    ensures '0' <= c <= '9' && c as int - '0' as int == d
  {
    ('0' as int + d) as char
  }

  predicate IsDigits(s: string) {
    forall i :: 0 <= i < |s| ==> '0' <= s[i] <= '9'
  }

  function DigitsValue(s: string): nat
    requires IsDigits(s)
  {
    if s == [] then 0 else DigitsValue(s[..|s| - 1]) * 10 + (s[|s| - 1] as int - '0' as int)
  }

  // ---------------------------------------------------------------- whitespace collapse

  /** The non-whitespace characters of `s`, in order. */
  function NonSpace(s: string): string {
    if s == [] then []
    else NonSpace(s[..|s| - 1]) + (if IsSpace(s[|s| - 1]) then [] else [s[|s| - 1]])
  }

  /** No whitespace other than `' '` and no two whitespace characters in a row. */
  predicate Collapsed(s: string) {
    forall i :: 0 <= i < |s| && IsSpace(s[i]) ==> s[i] == ' ' && (i + 1 < |s| ==> !IsSpace(s[i + 1]))
  }

  /** Replacing every maximal run of whitespace by one space: the result is
      collapsed, has the same words as `s` (`CollapseKeepsWords`), and starts
      and ends with a space exactly when `s` starts and ends with whitespace.
      These determine the result. */
  function Collapse(s: string): (r: string)
    ensures Collapsed(r)
    ensures NonSpace(r) == NonSpace(s)
    ensures |r| <= |s|
    ensures r == [] <==> s == []
    ensures r != [] ==> (IsSpace(r[0]) <==> IsSpace(s[0]))
    ensures r != [] ==> (IsSpace(r[|r| - 1]) <==> IsSpace(s[|s| - 1]))
    decreases |s|
  {
    if s == [] then []
    else
      var p := Collapse(s[..|s| - 1]);
      CollapseStepKeeps(s, p);
      CollapseStep(p, s[|s| - 1])
  }

  /** One step of `Collapse`: a non-whitespace character is appended, a
      whitespace character becomes a space unless one is already there. */
  function CollapseStep(p: string, c: char): string {
    if !IsSpace(c) then p + [c] else if p != [] && IsSpace(p[|p| - 1]) then p else p + [' ']
  }

  /** If `p` relates to `s` without its last character as `Collapse` promises,
      one step relates the result to `s` in the same way. */
  lemma {:induction false} CollapseStepKeeps(s: string, p: string)
    requires s != [] && Collapsed(p) && NonSpace(p) == NonSpace(s[..|s| - 1]) && |p| <= |s| - 1
    requires p == [] <==> s[..|s| - 1] == []
    requires p != [] ==> (IsSpace(p[0]) <==> IsSpace(s[0]))
    requires p != [] ==> (IsSpace(p[|p| - 1]) <==> IsSpace(s[|s| - 2]))
    ensures var r := CollapseStep(p, s[|s| - 1]);
      && Collapsed(r) && NonSpace(r) == NonSpace(s) && |r| <= |s|
      && r != [] && (IsSpace(r[0]) <==> IsSpace(s[0]))
      && (IsSpace(r[|r| - 1]) <==> IsSpace(s[|s| - 1]))
  {
    var c := s[|s| - 1];
    var r := CollapseStep(p, c);
    assert r[..|r| - 1] == p || r == p;
    assert IsSpace(' ');
    if p != [] {
      assert s[..|s| - 1][0] == s[0];
      assert s[..|s| - 1][|s| - 2] == s[|s| - 2];
    }
  }

  /** A string that is already collapsed is left unchanged. */
  lemma {:induction false} CollapseKeepsCollapsed(s: string)
    requires Collapsed(s)
    ensures Collapse(s) == s
    decreases |s|
  {
    if s != [] {
      var q := s[..|s| - 1];
      assert Collapsed(q) by {
        forall i | 0 <= i < |q| && IsSpace(q[i]) ensures q[i] == ' ' && (i + 1 < |q| ==> !IsSpace(q[i + 1])) {
          assert q[i] == s[i];
          if i + 1 < |q| { assert q[i + 1] == s[i + 1]; }
        }
      }
      CollapseKeepsCollapsed(q);
      assert s == q + [s[|s| - 1]];
      if IsSpace(s[|s| - 1]) && q != [] {
        assert !IsSpace(q[|q| - 1]) by { assert q[|q| - 1] == s[|s| - 2]; }
      }
    }
  }

  /** Collapsing keeps the words: each run of whitespace between two words
      becomes a separator, none is deleted. */
  lemma {:induction false} CollapseKeepsWords(s: string)
    ensures Words(Collapse(s)) == Words(s)
    decreases |s|
  {
    if s != [] {
      CollapseKeepsWords(s[..|s| - 1]);
      CollapseStepKeepsWords(s);
    }
  }

  /** The last step of `Collapse` keeps the words in step. */
  lemma {:induction false} CollapseStepKeepsWords(s: string)
    requires s != [] && Words(Collapse(s[..|s| - 1])) == Words(s[..|s| - 1])
    ensures Words(Collapse(s)) == Words(s)
  {
    var q, c := s[..|s| - 1], s[|s| - 1];
    var p := Collapse(q);
    if !IsSpace(c) {
      var r := p + [c];
      assert r[..|r| - 1] == p;
      WordsAgreeOnLast(r, s);
    } else if !(p != [] && IsSpace(p[|p| - 1])) {
      WordsSnocSpace(p, ' ');
    }
  }

  /** Trailing whitespace adds no word. */
  lemma {:induction false} WordsSnocSpace(a: string, c: char)
    requires IsSpace(c)
    ensures Words(a + [c]) == Words(a)
  {
    assert (a + [c])[..|a|] == a;
  }

  /** What the last character does to the words depends only on the words
      before it and on whether the character before it is whitespace. */
  lemma {:induction false} WordsAgreeOnLast(a: string, b: string)
    requires a != [] && b != [] && a[|a| - 1] == b[|b| - 1]
    requires Words(a[..|a| - 1]) == Words(b[..|b| - 1]) && (|a| == 1 <==> |b| == 1)
    requires |a| > 1 ==> (IsSpace(a[|a| - 2]) <==> IsSpace(b[|b| - 2]))
    ensures Words(a) == Words(b)
  {
  }

  /** Collapsing twice is collapsing once. */
  lemma {:induction false} CollapseIdempotent(s: string)
    ensures Collapse(Collapse(s)) == Collapse(s)
  {
    CollapseKeepsCollapsed(Collapse(s));
  }

  const SampleLimit: nat := 15000

  /** The text sample of the readability checker: the page text with its
      whitespace runs collapsed, cut to its first 15000 characters. */
  function Sample(text: string): (r: string)
    ensures |r| == if |Collapse(text)| <= SampleLimit then |Collapse(text)| else SampleLimit
    ensures r == Collapse(text)[..|r|]
    ensures Collapsed(r)
  {
    var c := Collapse(text);
    if |c| <= SampleLimit then c else c[..SampleLimit]
  }

  // ---------------------------------------------------------------- split

  /** A non-empty run of non-whitespace characters. */
  predicate IsWord(w: string) {
    w != [] && forall k :: 0 <= k < |w| ==> !IsSpace(w[k])
  }

  /** What splitting on whitespace with no separator gives: the maximal runs
      of non-whitespace, in order. */
  function Words(s: string): (w: seq<string>)
    ensures s != [] && !IsSpace(s[|s| - 1]) ==> w != []
    ensures forall i :: 0 <= i < |w| ==> IsWord(w[i])
    decreases |s|
  {
    if s == [] then []
    else
      var p := Words(s[..|s| - 1]);
      var c := s[|s| - 1];
      if IsSpace(c) then p
      else if |s| > 1 && !IsSpace(s[|s| - 2]) then
        assert s[..|s| - 1][|s| - 2] == s[|s| - 2];
        p[..|p| - 1] + [p[|p| - 1] + [c]]
      else p + [[c]]
  }

  /** The number of words, counted as the number of places where a word
      starts. */
  function WordCount(s: string): (n: nat)
    ensures n <= |s|
    ensures n == |Words(s)|
    decreases |s|
  {
    if s == [] then 0
    else
      var last := s[|s| - 1];
      var starts := !IsSpace(last) && (|s| == 1 || IsSpace(s[|s| - 2]));
      WordCount(s[..|s| - 1]) + (if starts then 1 else 0)
  }

  /** `s.split()` is empty exactly when `s` is all whitespace (so
      `len(s.split()) or 1` replaces 0 by 1 exactly then). */
  lemma {:induction false} WordCountZero(s: string)
    ensures WordCount(s) == 0 <==> AllSpace(s)
    decreases |s|
  {
    if s != [] {
      var q := s[..|s| - 1];
      WordCountZero(q);
      assert forall i :: 0 <= i < |q| ==> q[i] == s[i];
      if AllSpace(q) && !IsSpace(s[|s| - 1]) && |s| > 1 {
        assert IsSpace(q[|q| - 1]);
      }
    }
  }
}
