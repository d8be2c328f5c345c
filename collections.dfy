/** Sequence facts behind the checkers' counting: occurrence counts, the keys
    of a Python dict in insertion order, and `len(xs) != len(set(xs))`. */
module Collections {

  /** Number of occurrences of `x` in `s` (`s.count(x)`). */
  function Count<T(==)>(s: seq<T>, x: T): nat {
    if s == [] then 0 else Count(s[..|s| - 1], x) + (if s[|s| - 1] == x then 1 else 0)
  }

  lemma {:induction false} CountSnoc<T>(s: seq<T>, y: T, x: T)
    ensures Count(s + [y], x) == Count(s, x) + (if y == x then 1 else 0)
  {
    assert (s + [y])[..|s|] == s;
  }

  lemma {:induction false} CountPositive<T>(s: seq<T>, x: T)
    ensures Count(s, x) > 0 <==> x in s
    decreases |s|
  {
    if s != [] {
      var p := s[..|s| - 1];
      CountPositive(p, x);
      assert s == p + [s[|s| - 1]];
    }
  }

  /** The dict that counting the elements of `s` one by one leaves,
      starting from an empty dict and raising the element's count (0 when
      absent) by one each time. */
  function Tally<T>(s: seq<T>): map<T, nat> {
    if s == [] then map[]
    else
      var d := Tally(s[..|s| - 1]);
      var x := s[|s| - 1];
      d[x := (if x in d then d[x] else 0) + 1]
  }

  lemma {:induction false} TallySnoc<T>(s: seq<T>, x: T)
    ensures Tally(s + [x]) == Tally(s)[x := (if x in Tally(s) then Tally(s)[x] else 0) + 1]
  {
    assert (s + [x])[..|s|] == s;
  }

  /** The tally maps exactly the elements of `s`, each to its number of
      occurrences. */
  lemma {:induction false} TallyCounts<T>(s: seq<T>)
    ensures forall k :: k in Tally(s) <==> k in s
    ensures forall k :: k in Tally(s) ==> Tally(s)[k] == Count(s, k)
    decreases |s|
  {
    if s != [] {
      var p, x := s[..|s| - 1], s[|s| - 1];
      TallyCounts(p);
      assert s == p + [x];
      forall k ensures (k in Tally(s) <==> k in s) && (k in Tally(s) ==> Tally(s)[k] == Count(s, k)) {
        CountSnoc(p, x, k);
        CountPositive(p, k);
      }
    }
  }

  /** Index of the first occurrence of `x` in `s`. */
  function IndexOf<T(==)>(s: seq<T>, x: T): (i: nat)
    requires x in s
    ensures i < |s| && s[i] == x && x !in s[..i]
  {
    if s[0] == x then 0 else 1 + IndexOf(s[1..], x)
  }

  lemma {:induction false} IndexOfPrefix<T>(s: seq<T>, y: T, x: T)
    requires x in s
    ensures IndexOf(s + [y], x) == IndexOf(s, x)
    decreases |s|
  {
    if s[0] != x {
      assert (s + [y])[1..] == s[1..] + [y];
      IndexOfPrefix(s[1..], y, x);
    }
  }

  lemma {:induction false} IndexOfLast<T>(s: seq<T>, x: T)
    requires x !in s
    ensures IndexOf(s + [x], x) == |s|
    decreases |s|
  {
    if s != [] {
      assert (s + [x])[1..] == s[1..] + [x];
      IndexOfLast(s[1..], x);
    }
  }

  predicate NoRepeat<T(==)>(s: seq<T>) {
    forall i, j :: 0 <= i < j < |s| ==> s[i] != s[j]
  }

  /** The distinct elements of `s` in order of first occurrence: the keys of a
      Python dict filled by a loop over `s`, in insertion order. */
  function Dedup<T(==)>(s: seq<T>): (r: seq<T>)
    ensures forall i :: 0 <= i < |s| ==> s[i] in r
    ensures forall i :: 0 <= i < |r| ==> r[i] in s
    ensures NoRepeat(r)
    decreases |s|
  {
    if s == [] then []
    else
      var p := s[..|s| - 1];
      var x := s[|s| - 1];
      var d := Dedup(p);
      assert s == p + [x];
      if x in d then d else d + [x]
  }

  /** `Dedup` keeps the order of first occurrences. */
  lemma {:induction false} DedupOrder<T>(s: seq<T>)
    ensures forall i, j :: 0 <= i < j < |Dedup(s)| ==> IndexOf(s, Dedup(s)[i]) < IndexOf(s, Dedup(s)[j])
    decreases |s|
  {
    if s != [] {
      var p := s[..|s| - 1];
      var x := s[|s| - 1];
      DedupOrder(p);
      assert s == p + [x];
      IndexOfSnoc(p, x);
      if x !in Dedup(p) {
        IndexOfLast(p, x);
      }
    }
  }

  lemma {:induction false} DedupSnoc<T>(s: seq<T>, x: T)
    ensures Dedup(s + [x]) == if x in s then Dedup(s) else Dedup(s) + [x]
  {
    assert (s + [x])[..|s|] == s;
  }

  lemma {:induction false} IndexOfSnoc<T>(p: seq<T>, x: T)
    ensures forall y :: y in p ==> IndexOf(p + [x], y) == IndexOf(p, y)
  {
    forall y | y in p ensures IndexOf(p + [x], y) == IndexOf(p, y) {
      IndexOfPrefix(p, x, y);
    }
  }

  /** The set of elements of `s` (`set(s)`). */
  function Elements<T>(s: seq<T>): set<T> {
    set x | x in s
  }

  lemma {:induction false} ElementsSnoc<T>(s: seq<T>, x: T)
    ensures Elements(s + [x]) == Elements(s) + {x}
  {
  }

  lemma {:induction false} ElementsBound<T>(s: seq<T>)
    ensures |Elements(s)| <= |s|
    decreases |s|
  {
    if s != [] {
      var p := s[..|s| - 1];
      assert s == p + [s[|s| - 1]];
      ElementsSnoc(p, s[|s| - 1]);
      ElementsBound(p);
    }
  }

  /** `len(s) != len(set(s))` holds exactly when some element occurs twice. */
  lemma {:induction false} SetSizeDetectsRepeat<T>(s: seq<T>)
    ensures |Elements(s)| == |s| <==> NoRepeat(s)
    decreases |s|
  {
    if s != [] {
      var p := s[..|s| - 1];
      var x := s[|s| - 1];
      assert s == p + [x];
      ElementsSnoc(p, x);
      SetSizeDetectsRepeat(p);
      if x in p {
        ElementsBound(p);
        var k :| 0 <= k < |p| && p[k] == x;
        assert s[k] == s[|s| - 1];
      } else {
        assert Elements(s) == Elements(p) + {x} && x !in Elements(p);
        if NoRepeat(p) {
          forall i, j | 0 <= i < j < |s| ensures s[i] != s[j] {
            if j < |p| { assert s[i] == p[i] && s[j] == p[j]; }
            else { assert s[i] == p[i]; }
          }
        } else {
          var i, j :| 0 <= i < j < |p| && p[i] == p[j];
          assert s[i] == s[j];
        }
      }
    }
  }

  /** The elements of `s` that satisfy `p`, in order. */
  function Filter<T>(s: seq<T>, p: T -> bool): (r: seq<T>)
    ensures |r| <= |s|
    ensures forall i :: 0 <= i < |r| ==> r[i] in s && p(r[i])
    ensures forall i :: 0 <= i < |s| && p(s[i]) ==> s[i] in r
  {
    if s == [] then [] else (if p(s[0]) then [s[0]] else []) + Filter(s[1..], p)
  }

  /** Filtering a concatenation filters each part. */
  lemma {:induction false} FilterConcat<T>(a: seq<T>, b: seq<T>, p: T -> bool)
    ensures Filter(a + b, p) == Filter(a, p) + Filter(b, p)
    decreases |a|
  {
    if a != [] {
      assert (a + b)[1..] == a[1..] + b;
      FilterConcat(a[1..], b, p);
    } else {
      assert a + b == b;
    }
  }

  /** Predicates that agree on the elements of `s` filter it alike. */
  lemma {:induction false} FilterAgree<T>(s: seq<T>, p: T -> bool, q: T -> bool)
    requires forall i :: 0 <= i < |s| ==> p(s[i]) == q(s[i])
    ensures Filter(s, p) == Filter(s, q)
    decreases |s|
  {
    if s != [] {
      FilterAgree(s[1..], p, q);
    }
  }

  /** The filtered list is non-empty exactly when some element satisfies the
      filter. */
  lemma FilterNonEmpty<T>(s: seq<T>, p: T -> bool)
    ensures Filter(s, p) != [] <==> exists i :: 0 <= i < |s| && p(s[i])
  {
    var r := Filter(s, p);
    if r != [] {
      assert r[0] in s && p(r[0]);
      var k :| 0 <= k < |s| && s[k] == r[0];
      assert p(s[k]);
    }
  }

  /** A relation that holds between every earlier and later element of `s`
      still holds in any filtering of `s`: filtering keeps order. */
  lemma {:induction false} FilterKeepsPairs<T>(s: seq<T>, p: T -> bool, rel: (T, T) -> bool)
    requires forall i, j :: 0 <= i < j < |s| ==> rel(s[i], s[j])
    ensures forall i, j :: 0 <= i < j < |Filter(s, p)| ==> rel(Filter(s, p)[i], Filter(s, p)[j])
    decreases |s|
  {
    if s != [] {
      var t := s[1..];
      assert forall i, j :: 0 <= i < j < |t| ==> rel(t[i], t[j]) by {
        forall i, j | 0 <= i < j < |t| ensures rel(t[i], t[j]) {
          assert t[i] == s[i + 1] && t[j] == s[j + 1];
        }
      }
      FilterKeepsPairs(t, p, rel);
      var ft := Filter(t, p);
      assert forall i, j :: 0 <= i < j < |ft| ==> rel(ft[i], ft[j]);
      assert Filter(s, p) == (if p(s[0]) then [s[0]] else []) + ft;
      if p(s[0]) {
        var r := [s[0]] + ft;
        forall i, j | 0 <= i < j < |r| ensures rel(r[i], r[j]) {
          if i == 0 {
            assert r[j] == ft[j - 1] && ft[j - 1] in t;
            var k :| 0 <= k < |t| && t[k] == ft[j - 1];
            assert t[k] == s[k + 1];
            assert rel(s[0], s[k + 1]);
          } else {
            assert r[i] == ft[i - 1] && r[j] == ft[j - 1];
          }
        }
      } else {
        assert Filter(s, p) == ft;
      }
    }
  }

  /** Filtering a sequence without repeats gives one without repeats. */
  lemma {:induction false} FilterNoRepeat<T>(s: seq<T>, p: T -> bool)
    requires NoRepeat(s)
    ensures NoRepeat(Filter(s, p))
  {
    FilterKeepsPairs(s, p, (a: T, b: T) => a != b);
  }
}
