/** The stream filter the cabinet's queries use: keep, in order, the elements
    that satisfy a test. */
module Filters {

  function Filter<T>(s: seq<T>, keep: T -> bool): (r: seq<T>)
    ensures |r| <= |s|
  {
    if s == [] then []
    else if keep(s[0]) then [s[0]] + Filter(s[1..], keep)
    else Filter(s[1..], keep)
  }

  /** The result holds exactly the input's elements that pass the test. */
  lemma {:induction false} FilterMembers<T>(s: seq<T>, keep: T -> bool)
    ensures forall x :: x in Filter(s, keep) <==> x in s && keep(x)
  {
    if s != [] {
      FilterMembers(s[1..], keep);
      assert s == [s[0]] + s[1..];
    }
  }

  /** Filtering distributes over concatenation, so the kept elements stay in their
      original relative order. */
  lemma {:induction false} FilterAppend<T>(a: seq<T>, b: seq<T>, keep: T -> bool)
    ensures Filter(a + b, keep) == Filter(a, keep) + Filter(b, keep)
  {
    if a == [] {
      assert a + b == b;
    } else {
      assert (a + b)[0] == a[0];
      assert (a + b)[1..] == a[1..] + b;
      FilterAppend(a[1..], b, keep);
    }
  }

  /** Each kept value occurs in the result as often as in the input; every other
      value does not occur at all. */
  lemma {:induction false} FilterMultiset<T>(s: seq<T>, keep: T -> bool)
    ensures forall x :: multiset(Filter(s, keep))[x] == if keep(x) then multiset(s)[x] else 0
  {
    if s != [] {
      FilterMultiset(s[1..], keep);
      assert s == [s[0]] + s[1..];
      assert multiset(s) == multiset{s[0]} + multiset(s[1..]);
    }
  }

  /** Filtering keeps nothing exactly when no element passes the test. */
  lemma FilterEmpty<T>(s: seq<T>, keep: T -> bool)
    ensures Filter(s, keep) == [] <==> forall i :: 0 <= i < |s| ==> !keep(s[i])
  {
    FilterMembers(s, keep);
    if Filter(s, keep) != [] {
      assert Filter(s, keep)[0] in Filter(s, keep);
    } else {
      forall i | 0 <= i < |s| ensures !keep(s[i]) {
        assert s[i] in s;
      }
    }
  }

  /** Filtering keeps two or more elements exactly when two distinct positions
      of the input pass the test. */
  lemma FilterAtLeastTwo<T>(s: seq<T>, keep: T -> bool)
    ensures |Filter(s, keep)| >= 2 <==>
            exists i, j :: 0 <= i < j < |s| && keep(s[i]) && keep(s[j])
  {
    FilterTwoHasWitnesses(s, keep);
    FilterTwoFromWitnesses(s, keep);
  }

  /** Two kept elements come from two distinct passing positions. */
  lemma {:induction false} FilterTwoHasWitnesses<T>(s: seq<T>, keep: T -> bool)
    ensures |Filter(s, keep)| >= 2 ==>
            exists i, j :: 0 <= i < j < |s| && keep(s[i]) && keep(s[j])
  {
    if s != [] && |Filter(s, keep)| >= 2 {
      var tail := s[1..];
      if keep(s[0]) {
        FilterEmpty(tail, keep);
        var j :| 0 <= j < |tail| && keep(tail[j]);
        assert keep(s[0]) && keep(s[j + 1]);
      } else {
        FilterTwoHasWitnesses(tail, keep);
        var i, j :| 0 <= i < j < |tail| && keep(tail[i]) && keep(tail[j]);
        assert keep(s[i + 1]) && keep(s[j + 1]);
      }
    }
  }

  /** Two distinct passing positions give two kept elements. */
  lemma {:induction false} FilterTwoFromWitnesses<T>(s: seq<T>, keep: T -> bool)
    ensures (exists i, j :: 0 <= i < j < |s| && keep(s[i]) && keep(s[j])) ==>
            |Filter(s, keep)| >= 2
  {
    if exists i, j :: 0 <= i < j < |s| && keep(s[i]) && keep(s[j]) {
      var i, j :| 0 <= i < j < |s| && keep(s[i]) && keep(s[j]);
      var tail := s[1..];
      if i == 0 {
        FilterEmpty(tail, keep);
        assert keep(tail[j - 1]);
      } else {
        FilterTwoFromWitnesses(tail, keep);
        assert keep(tail[i - 1]) && keep(tail[j - 1]);
      }
    }
  }
}
