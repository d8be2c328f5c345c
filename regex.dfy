/** Python's `re`, reduced to what the checkers depend on. Compiling is
    modelled by its group check: a pattern whose unescaped parentheses do not
    balance, or that ends in a lone backslash, raises `re.error`; any other
    pattern is taken to compile. What a compiled pattern matches is left to
    the engine, given as a `Matcher`. */
module Regex {
  import opened Wrappers

  /** A pattern source (as the characters the regex engine sees) and whether
      `re.IGNORECASE` is set. */
  datatype Pattern = Pattern(source: string, ignoreCase: bool)

  /** `pattern.search(subject) is not None`, for a pattern that compiled. */
  type Matcher = (Pattern, string) -> bool

  /** The number of groups still open after scanning `s[i..]` with `depth`
      groups open, or the compile error the scan runs into. */
  function GroupDepth(s: string, i: nat, depth: nat): (r: Result<nat>)
    requires i <= |s|
    ensures r.Err? ==> r.message != ""
    decreases |s| - i
  {
    if i == |s| then Ok(depth)
    else if s[i] == '\\' then
      if i + 1 == |s| then Err("bad escape (end of pattern)") else GroupDepth(s, i + 2, depth)
    else if s[i] == '(' then GroupDepth(s, i + 1, depth + 1)
    else if s[i] == ')' then
      if depth == 0 then Err("unbalanced parenthesis") else GroupDepth(s, i + 1, depth - 1)
    else GroupDepth(s, i + 1, depth)
  }

  /** Scanning `a + b` is scanning `a` and then `b`, when `a` scans without
      error (so it does not end in a lone backslash). */
  lemma {:induction false} GroupDepthConcat(a: string, b: string, i: nat, depth: nat)
    requires i <= |a| && GroupDepth(a, i, depth).Ok?
    ensures GroupDepth(a + b, i, depth) == GroupDepth(b, 0, GroupDepth(a, i, depth).value)
    decreases |a| - i
  {
    if i < |a| {
      assert (a + b)[i] == a[i];
      if a[i] == '\\' {
        GroupDepthConcat(a, b, i + 2, depth);
      } else if a[i] == '(' {
        GroupDepthConcat(a, b, i + 1, depth + 1);
      } else if a[i] == ')' {
        GroupDepthConcat(a, b, i + 1, depth - 1);
      } else {
        GroupDepthConcat(a, b, i + 1, depth);
      }
    } else {
      GroupDepthShift(a, b, 0, depth);
    }
  }

  /** Scanning the tail `b` of `a + b` from its start. */
  lemma {:induction false} GroupDepthShift(a: string, b: string, j: nat, depth: nat)
    requires j <= |b|
    ensures GroupDepth(a + b, |a| + j, depth) == GroupDepth(b, j, depth)
    decreases |b| - j
  {
    if j < |b| {
      assert (a + b)[|a| + j] == b[j];
      if b[j] == '\\' {
        if j + 1 < |b| { GroupDepthShift(a, b, j + 2, depth); }
      } else if b[j] == '(' {
        GroupDepthShift(a, b, j + 1, depth + 1);
      } else if b[j] == ')' {
        if depth > 0 { GroupDepthShift(a, b, j + 1, depth - 1); }
      } else {
        GroupDepthShift(a, b, j + 1, depth);
      }
    }
  }

  predicate Balanced(source: string) {
    GroupDepth(source, 0, 0) == Ok(0)
  }

  /** `re.compile(pattern)`: it succeeds, yielding the pattern, exactly when
      the groups balance. */
  function Compile(p: Pattern): (r: Result<Pattern>)
    ensures r.Ok? <==> Balanced(p.source)
    ensures r.Ok? ==> r.value == p
    ensures r.Err? ==> r.message != ""
  {
    match GroupDepth(p.source, 0, 0)
    case Ok(d) =>
      if d == 0 then Ok(p) else Err("missing ), unterminated subpattern")
    case Err(e) => Err(e)
  }

  /** `re.search(pattern, subject)`: compiles first, so an ill-formed pattern
      raises whatever the subject. */
  function Search(m: Matcher, p: Pattern, subject: string): (r: Result<bool>)
    ensures r.Err? <==> !Balanced(p.source)
    ensures r.Ok? ==> r.value == m(p, subject)
  {
    match Compile(p)
    case Ok(q) => Ok(m(q, subject))
    case Err(e) => Err(e)
  }
}
