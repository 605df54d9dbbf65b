/** Models of the two JavaScript array methods the board is built from,
    `Array.prototype.filter` and `Array.prototype.map`, on Dafny sequences,
    with the facts about them that the board's handlers rely on. */
module SeqOps {

  /** `r` can be obtained from `s` by deleting zero or more elements,
      keeping the order of the ones that remain. */
  ghost predicate IsSubsequence<T>(r: seq<T>, s: seq<T>)
    decreases |s|
  {
    if r == [] then true
    else if s == [] then false
    else (r[0] == s[0] && IsSubsequence(r[1..], s[1..])) || IsSubsequence(r, s[1..])
  }

  /** `s.filter(p)`: the elements of `s` that satisfy `p`, in their order. */
  function Filter<T>(p: T -> bool, s: seq<T>): (r: seq<T>)
    ensures |r| <= |s|
    ensures forall i :: 0 <= i < |r| ==> r[i] in s && p(r[i])
    ensures forall i :: 0 <= i < |s| && p(s[i]) ==> s[i] in r
  {
    if s == [] then []
    else if p(s[0]) then [s[0]] + Filter(p, s[1..])
    else Filter(p, s[1..])
  }

  /** `s.map(f)`: one result per element, position by position. */
  function Map<T, U>(f: T -> U, s: seq<T>): (r: seq<U>)
    ensures |r| == |s|
    ensures forall i :: 0 <= i < |s| ==> r[i] == f(s[i])
  {
    if s == [] then [] else [f(s[0])] + Map(f, s[1..])
  }

  /** Filtering keeps the relative order of what it keeps. */
  lemma {:induction false} FilterIsSubsequence<T>(p: T -> bool, s: seq<T>)
    ensures IsSubsequence(Filter(p, s), s)
  {
    if s != [] {
      var rest := Filter(p, s[1..]);
      FilterIsSubsequence(p, s[1..]);
      if p(s[0]) {
        assert ([s[0]] + rest)[1..] == rest;
      } else {
        SubsequenceOfTail(rest, s);
      }
    }
  }

  /** A subsequence of the tail is a subsequence of the whole. */
  lemma SubsequenceOfTail<T>(r: seq<T>, s: seq<T>)
    requires s != [] && IsSubsequence(r, s[1..])
    ensures IsSubsequence(r, s)
  {
  }

  /** Filtering keeps every copy of each element that satisfies `p` and
      no copy of any other element. */
  lemma {:induction false} FilterMultiset<T>(p: T -> bool, s: seq<T>)
    ensures forall x :: multiset(Filter(p, s))[x] == if p(x) then multiset(s)[x] else 0
  {
    if s != [] {
      FilterMultiset(p, s[1..]);
      assert s == [s[0]] + s[1..];
      assert multiset(s) == multiset([s[0]]) + multiset(s[1..]);
      if p(s[0]) {
        assert multiset(Filter(p, s)) == multiset([s[0]]) + multiset(Filter(p, s[1..]));
      }
    }
  }

  /** Deleting elements never adds copies of anything. */
  lemma {:induction false} SubsequenceMultiset<T>(r: seq<T>, s: seq<T>)
    requires IsSubsequence(r, s)
    ensures multiset(r) <= multiset(s)
    decreases |s|
  {
    if r != [] {
      assert s == [s[0]] + s[1..];
      if r[0] == s[0] && IsSubsequence(r[1..], s[1..]) {
        SubsequenceMultiset(r[1..], s[1..]);
        assert r == [r[0]] + r[1..];
      } else {
        SubsequenceMultiset(r, s[1..]);
      }
    }
  }

  /** The filter is the only subsequence of `s` holding exactly the copies
      of `s` that satisfy `p`: "the subsequence with those elements" names
      one sequence. */
  lemma {:induction false} FilterUnique<T>(p: T -> bool, s: seq<T>, r: seq<T>)
    requires IsSubsequence(r, s)
    requires forall x :: multiset(r)[x] == if p(x) then multiset(s)[x] else 0
    ensures r == Filter(p, s)
    decreases |s|
  {
    if s == [] {
      assert multiset(r) == multiset{};
    } else {
      var x := s[0];
      assert s == [x] + s[1..];
      assert multiset(s) == multiset{x} + multiset(s[1..]);
      if r == [] {
        assert p(x) ==> multiset(r)[x] >= 1;
        forall y | true
          ensures multiset(r)[y] == if p(y) then multiset(s[1..])[y] else 0
        {
          assert p(y) ==> multiset(s)[y] == 0;
        }
        FilterUnique(p, s[1..], r);
      } else if p(x) {
        assert multiset(r)[x] == multiset(s[1..])[x] + 1;
        if !(r[0] == x && IsSubsequence(r[1..], s[1..])) {
          SubsequenceMultiset(r, s[1..]);
          assert false;
        }
        assert r == [x] + r[1..];
        assert multiset(r) == multiset{x} + multiset(r[1..]);
        forall y | true
          ensures multiset(r[1..])[y] == if p(y) then multiset(s[1..])[y] else 0
        {
        }
        FilterUnique(p, s[1..], r[1..]);
      } else {
        assert multiset(r)[x] == 0;
        assert r[0] in multiset(r);
        assert r[0] != x;
        forall y | true
          ensures multiset(r)[y] == if p(y) then multiset(s[1..])[y] else 0
        {
        }
        FilterUnique(p, s[1..], r);
      }
    }
  }

  /** Filtering what was appended: the new element lands at the end of the
      filtered view exactly when it satisfies `p`. */
  lemma {:induction false} FilterAppend<T>(p: T -> bool, s: seq<T>, x: T)
    ensures Filter(p, s + [x]) == Filter(p, s) + (if p(x) then [x] else [])
  {
    if s == [] {
      assert [x][1..] == [];
    } else {
      assert (s + [x])[0] == s[0];
      assert (s + [x])[1..] == s[1..] + [x];
      FilterAppend(p, s[1..], x);
    }
  }

  /** A filter that rejects some element returns fewer elements. */
  lemma {:induction false} FilterDropsSomething<T>(p: T -> bool, s: seq<T>, k: nat)
    requires k < |s| && !p(s[k])
    ensures |Filter(p, s)| < |s|
  {
    if k > 0 {
      FilterDropsSomething(p, s[1..], k - 1);
    }
  }

  /** A filter that rejects nothing returns its input. */
  lemma {:induction false} FilterKeepsAll<T>(p: T -> bool, s: seq<T>)
    requires forall i :: 0 <= i < |s| ==> p(s[i])
    ensures Filter(p, s) == s
  {
    if s != [] {
      FilterKeepsAll(p, s[1..]);
      assert s == [s[0]] + s[1..];
    }
  }
}
