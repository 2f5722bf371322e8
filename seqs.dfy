/**
 * Order-preserving list operations shared by the pages: `Array.prototype.filter`,
 * the length of a filtered list, and what it means to be a sublist.
 */
module Seqs {

  /** `s.filter(keep)`: the elements of `s` that satisfy `keep`, in their original order. */
  function Filter<T>(s: seq<T>, keep: T -> bool): (r: seq<T>)
    ensures |r| <= |s|
    ensures forall i :: 0 <= i < |r| ==> keep(r[i])
    ensures forall i :: 0 <= i < |r| ==> r[i] in s
    ensures forall i :: 0 <= i < |s| ==> (s[i] in r <==> keep(s[i]))
  {
    if s == [] then []
    else if keep(s[0]) then [s[0]] + Filter(s[1..], keep)
    else Filter(s[1..], keep)
  }

  /**
   * `s.filter(keep)` holds each kept value exactly as often as `s` does and no other value;
   * with `FilterIsSubsequence` this fixes the result.
   */
  lemma {:induction false} FilterMultiplicity<T>(s: seq<T>, keep: T -> bool, x: T)
    ensures multiset(Filter(s, keep))[x] == if keep(x) then multiset(s)[x] else 0
  {
    if s != [] {
      FilterMultiplicity(s[1..], keep, x);
      assert s == [s[0]] + s[1..];
      if keep(s[0]) {
        assert Filter(s, keep) == [s[0]] + Filter(s[1..], keep);
      }
    }
  }

  /** `s.filter(keep).length`. */
  function Count<T>(s: seq<T>, keep: T -> bool): (r: nat)
  {
    |Filter(s, keep)|
  }

  /** `a` is `b` with some elements dropped and the rest kept in order. */
  ghost predicate IsSubsequence<T>(a: seq<T>, b: seq<T>)
    decreases |b|
  {
    if a == [] then true
    else if b == [] then false
    else (a[0] == b[0] && IsSubsequence(a[1..], b[1..])) || IsSubsequence(a, b[1..])
  }

  lemma {:induction false} FilterIsSubsequence<T>(s: seq<T>, keep: T -> bool)
    ensures IsSubsequence(Filter(s, keep), s)
  {
    if s != [] {
      FilterIsSubsequence(s[1..], keep);
      assert s == [s[0]] + s[1..];
    }
  }

  /** Filtering with a predicate that holds everywhere on `s` keeps `s` whole. */
  lemma {:induction false} FilterKeepsAll<T>(s: seq<T>, keep: T -> bool)
    requires forall i :: 0 <= i < |s| ==> keep(s[i])
    ensures Filter(s, keep) == s
  {
    if s != [] {
      FilterKeepsAll(s[1..], keep);
    }
  }

  /** Filtering with a predicate that holds nowhere on `s` leaves nothing. */
  lemma {:induction false} FilterDropsAll<T>(s: seq<T>, keep: T -> bool)
    requires forall i :: 0 <= i < |s| ==> !keep(s[i])
    ensures Filter(s, keep) == []
  {
    if s != [] {
      FilterDropsAll(s[1..], keep);
    }
  }

  /** Counting over a sublist never exceeds counting over the whole list. */
  lemma {:induction false} CountSubsequence<T>(a: seq<T>, b: seq<T>, keep: T -> bool)
    requires IsSubsequence(a, b)
    ensures Count(a, keep) <= Count(b, keep)
    decreases |b|
  {
    if a != [] {
      if a[0] == b[0] && IsSubsequence(a[1..], b[1..]) {
        CountSubsequence(a[1..], b[1..], keep);
      } else {
        CountSubsequence(a, b[1..], keep);
      }
    }
  }

  /** Two predicates that never hold together count at most the whole list between them. */
  lemma {:induction false} CountDisjoint<T>(s: seq<T>, p: T -> bool, q: T -> bool)
    requires forall i :: 0 <= i < |s| ==> !(p(s[i]) && q(s[i]))
    ensures Count(s, p) + Count(s, q) <= |s|
  {
    if s != [] {
      CountDisjoint(s[1..], p, q);
    }
  }

  /** Every element of a sublist occurs in the list. */
  lemma {:induction false} SubsequenceElements<T>(a: seq<T>, b: seq<T>)
    requires IsSubsequence(a, b)
    ensures forall x :: 0 <= x < |a| ==> exists k :: 0 <= k < |b| && b[k] == a[x]
    decreases |b|
  {
    if a != [] {
      if a[0] == b[0] && IsSubsequence(a[1..], b[1..]) {
        SubsequenceElements(a[1..], b[1..]);
        forall x | 0 <= x < |a| ensures exists k :: 0 <= k < |b| && b[k] == a[x] {
          if x == 0 {
            assert b[0] == a[0];
          } else {
            var k :| 0 <= k < |b[1..]| && b[1..][k] == a[1..][x - 1];
            assert b[k + 1] == a[x];
          }
        }
      } else {
        SubsequenceElements(a, b[1..]);
        forall x | 0 <= x < |a| ensures exists k :: 0 <= k < |b| && b[k] == a[x] {
          var k :| 0 <= k < |b[1..]| && b[1..][k] == a[x];
          assert b[k + 1] == a[x];
        }
      }
    }
  }
}
