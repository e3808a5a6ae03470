/**
 * The `java.util.stream` stages of the builder on strings: `filter`, `distinct`
 * and `sorted`, and what they guarantee together — the elements that pass the
 * filter, each once, in strictly increasing natural order.
 */
module Streams {
  import opened JavaStrings

  predicate NoDuplicates(s: seq<string>) {
    forall i, j :: 0 <= i < j < |s| ==> s[i] != s[j]
  }

  predicate StrictlySorted(s: seq<string>) {
    forall i, j :: 0 <= i < j < |s| ==> LexLess(s[i], s[j])
  }

  /** `filter(name -> name.startsWith(prefix))`: keeps exactly the elements that start with `prefix`, in order. */
  function FilterStartsWith(prefix: string, s: seq<string>): (r: seq<string>)
    ensures forall x :: x in r <==> x in s && StartsWith(x, prefix)
  {
    if s == [] then []
    else (if StartsWith(s[0], prefix) then [s[0]] else []) + FilterStartsWith(prefix, s[1..])
  }

  /** `distinct()`: the first occurrence of each element, in order. */
  function Distinct(s: seq<string>): (r: seq<string>)
    ensures forall x :: x in r <==> x in s
    ensures NoDuplicates(r)
  {
    if s == [] then []
    else
      var init, last := s[..|s| - 1], s[|s| - 1];
      assert s == init + [last];
      if last in init then Distinct(init) else Distinct(init) + [last]
  }

  /** One step of the insertion sort: `x` goes before the first element that does not sort before it. */
  function Insert(x: string, s: seq<string>): (r: seq<string>)
    ensures multiset(r) == multiset(s) + multiset{x}
  {
    if s == [] then [x]
    else if LexLess(s[0], x) then
      assert s == [s[0]] + s[1..];
      [s[0]] + Insert(x, s[1..])
    else [x] + s
  }

  /** `sorted()` in natural order: a permutation of the input. */
  function Sort(s: seq<string>): (r: seq<string>)
    ensures multiset(r) == multiset(s)
  {
    if s == [] then []
    else
      assert s == [s[0]] + s[1..];
      Insert(s[0], Sort(s[1..]))
  }

  lemma {:induction false} InsertStrictlySorted(x: string, s: seq<string>)
    requires StrictlySorted(s) && x !in s
    ensures StrictlySorted(Insert(x, s))
  {
    if s == [] {
    } else if LexLess(s[0], x) {
      InsertStrictlySorted(x, s[1..]);
      var t := Insert(x, s[1..]);
      forall e | e in t ensures LexLess(s[0], e) {
        assert e in multiset(t);
        if e != x {
          assert e in s[1..];
        }
      }
      assert Insert(x, s) == [s[0]] + t;
      forall i, j | 0 <= i < j < |Insert(x, s)| ensures LexLess(Insert(x, s)[i], Insert(x, s)[j]) {
        if i == 0 {
          assert Insert(x, s)[j] == t[j - 1];
        } else {
          assert Insert(x, s)[i] == t[i - 1] && Insert(x, s)[j] == t[j - 1];
        }
      }
    } else {
      assert x != s[0];
      LexLessTotal(x, s[0]);
      forall j | 0 < j < |s| ensures LexLess(x, s[j]) {
        LexLessTransitive(x, s[0], s[j]);
      }
    }
  }

  /** `distinct().sorted()` yields a strictly increasing sequence. */
  lemma {:induction false} SortStrictlySorted(s: seq<string>)
    requires NoDuplicates(s)
    ensures StrictlySorted(Sort(s))
  {
    if s != [] {
      assert NoDuplicates(s[1..]) by {
        forall i, j | 0 <= i < j < |s[1..]| ensures s[1..][i] != s[1..][j] {
          assert s[1..][i] == s[i + 1] && s[1..][j] == s[j + 1];
        }
      }
      SortStrictlySorted(s[1..]);
      assert s[0] !in s[1..];
      assert s[0] !in multiset(Sort(s[1..]));
      InsertStrictlySorted(s[0], Sort(s[1..]));
    }
  }

  /** A strictly increasing sequence is determined by its elements. */
  lemma {:induction false} StrictlySortedUnique(a: seq<string>, b: seq<string>)
    requires StrictlySorted(a) && StrictlySorted(b)
    requires forall x :: x in a <==> x in b
    ensures a == b
    decreases |a|
  {
    if a == [] {
      forall x ensures x !in multiset(b) {
        assert x !in a;
      }
      assert multiset(b) == multiset{};
      assert |b| == |multiset(b)| == 0;
    } else {
      assert a[0] in b;
      assert b[0] in a;
      var k :| 0 <= k < |b| && b[k] == a[0];
      var m :| 0 <= m < |a| && a[m] == b[0];
      if k != 0 {
        assert LexLess(b[0], a[0]);
        if m != 0 {
          LexLessAsymmetric(b[0], a[0]);
        }
        assert false;
      }
      forall x ensures x in a[1..] <==> x in b[1..] {
        if x in a[1..] {
          var i :| 1 <= i < |a| && a[i] == x;
          LexLessIrreflexive(a[0]);
          assert x != a[0];
          assert x in b;
        }
        if x in b[1..] {
          var i :| 1 <= i < |b| && b[i] == x;
          LexLessIrreflexive(b[0]);
          assert x != b[0];
          assert x in a;
        }
      }
      StrictlySortedUnique(a[1..], b[1..]);
      assert a == [a[0]] + a[1..] && b == [b[0]] + b[1..];
    }
  }
}
