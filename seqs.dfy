/** Sequence helpers shared by the catalog, the filter engine and the controls:
    the array `filter` of JavaScript, order-preserving subsequences, and
    duplicate-free lists. */
module Seqs {

  /** The elements of `s` that `keep` accepts, in their original order
      (what `Array.prototype.filter` returns). */
  function Filter<T(!new)>(s: seq<T>, keep: T -> bool): (r: seq<T>)
    ensures |r| <= |s|
    ensures forall x :: x in r <==> x in s && keep(x)
  {
    if s == [] then [] else (if keep(s[0]) then [s[0]] else []) + Filter(s[1..], keep)
  }

  /** `a` is obtained from `b` by deleting elements, keeping the order of the rest. */
  ghost predicate SubseqOf<T(!new)>(a: seq<T>, b: seq<T>)
    decreases |b|
  {
    a == [] || (b != [] && ((a[0] == b[0] && SubseqOf(a[1..], b[1..])) || SubseqOf(a, b[1..])))
  }

  /** No element occurs twice. */
  ghost predicate NoDup<T(!new)>(s: seq<T>) {
    forall i, j :: 0 <= i < j < |s| ==> s[i] != s[j]
  }

  /** Filtering keeps the order of what it keeps. */
  lemma {:induction false} FilterIsSubseq<T(!new)>(s: seq<T>, keep: T -> bool)
    ensures SubseqOf(Filter(s, keep), s)
  {
    if s != [] {
      FilterIsSubseq(s[1..], keep);
      var r := Filter(s, keep);
      if keep(s[0]) {
        assert r == [s[0]] + Filter(s[1..], keep);
        assert r[0] == s[0] && r[1..] == Filter(s[1..], keep);
      } else {
        assert r == Filter(s[1..], keep);
      }
    }
  }

  /** Filtering counts every kept value exactly as often as the input does and
      drops every occurrence of the others. */
  lemma {:induction false} FilterMultiset<T(!new)>(s: seq<T>, keep: T -> bool)
    ensures forall x :: multiset(Filter(s, keep))[x] == if keep(x) then multiset(s)[x] else 0
  {
    if s != [] {
      FilterMultiset(s[1..], keep);
      assert s == [s[0]] + s[1..];
    }
  }

  /** Filtering distributes over concatenation. */
  lemma {:induction false} FilterConcat<T(!new)>(a: seq<T>, b: seq<T>, keep: T -> bool)
    ensures Filter(a + b, keep) == Filter(a, keep) + Filter(b, keep)
  {
    if a == [] {
      assert a + b == b;
    } else {
      assert (a + b)[0] == a[0] && (a + b)[1..] == a[1..] + b;
      FilterConcat(a[1..], b, keep);
    }
  }

  /** A filter that accepts exactly the positions listed, in increasing
      order, in `idx` gives the elements at those positions. */
  lemma {:induction false} FilterPick<T(!new)>(s: seq<T>, keep: T -> bool, idx: seq<nat>)
    requires forall j :: 0 <= j < |idx| ==> idx[j] < |s|
    requires forall j, k :: 0 <= j < k < |idx| ==> idx[j] < idx[k]
    requires forall i :: 0 <= i < |s| ==> (keep(s[i]) <==> i in idx)
    ensures |Filter(s, keep)| == |idx|
    ensures forall j :: 0 <= j < |idx| ==> Filter(s, keep)[j] == s[idx[j]]
    decreases |s|
  {
    if s == [] {
      PositionsBelow(idx, |s|);
    } else {
      var d := if keep(s[0]) then 1 else 0;
      LeadingZero(s, keep, idx);
      var rest := seq(|idx| - d, j requires 0 <= j < |idx| - d => idx[j + d] - 1);
      ShiftedPositions(s, keep, idx, d, rest);
      FilterPick(s[1..], keep, rest);
      assert forall j :: 0 <= j < |rest| ==> s[1..][rest[j]] == s[rest[j] + 1];
      PickCons(s, keep(s[0]), Filter(s[1..], keep), Filter(s, keep), idx, d, rest);
    }
  }

  /** `FilterPick`, with the elements at the listed positions given as the
      list `picked`. */
  lemma FilterPicks<T(!new)>(s: seq<T>, keep: T -> bool, idx: seq<nat>, picked: seq<T>)
    requires forall j :: 0 <= j < |idx| ==> idx[j] < |s|
    requires forall j, k :: 0 <= j < k < |idx| ==> idx[j] < idx[k]
    requires forall i :: 0 <= i < |s| ==> (keep(s[i]) <==> i in idx)
    requires |picked| == |idx| && forall j :: 0 <= j < |idx| ==> picked[j] == s[idx[j]]
    ensures Filter(s, keep) == picked
  {
    FilterPick(s, keep, idx);
  }

  /** Positions below `n` exist only when `n` is positive. */
  lemma PositionsBelow(idx: seq<nat>, n: nat)
    requires forall j :: 0 <= j < |idx| ==> idx[j] < n
    ensures idx != [] ==> n > 0
  {
    if idx != [] {
      assert idx[0] < n;
    }
  }

  /** Position 0 is listed, and then first, exactly when `s[0]` is accepted. */
  lemma LeadingZero<T(!new)>(s: seq<T>, keep: T -> bool, idx: seq<nat>)
    requires s != []
    requires forall j, k :: 0 <= j < k < |idx| ==> idx[j] < idx[k]
    requires forall i :: 0 <= i < |s| ==> (keep(s[i]) <==> i in idx)
    ensures var d := if keep(s[0]) then 1 else 0;
      d <= |idx| && forall j :: 0 <= j < |idx| ==> (idx[j] == 0 <==> j < d)
  {
    if keep(s[0]) {
      assert 0 in idx;
      assert idx[0] == 0;
    }
  }

  /** The positions of `idx` after dropping its first `d` and shifting the
      rest down by one are the accepted positions of `s[1..]`. */
  lemma ShiftedPositions<T(!new)>(s: seq<T>, keep: T -> bool, idx: seq<nat>, d: nat, rest: seq<nat>)
    requires s != [] && d == (if keep(s[0]) then 1 else 0) && d <= |idx|
    requires forall j :: 0 <= j < |idx| ==> idx[j] < |s|
    requires forall j, k :: 0 <= j < k < |idx| ==> idx[j] < idx[k]
    requires forall i :: 0 <= i < |s| ==> (keep(s[i]) <==> i in idx)
    requires forall j :: 0 <= j < |idx| ==> (idx[j] == 0 <==> j < d)
    requires |rest| == |idx| - d && forall j :: 0 <= j < |rest| ==> rest[j] == idx[j + d] - 1
    ensures forall j :: 0 <= j < |rest| ==> rest[j] < |s[1..]|
    ensures forall j, k :: 0 <= j < k < |rest| ==> rest[j] < rest[k]
    ensures forall i :: 0 <= i < |s[1..]| ==> (keep(s[1..][i]) <==> i in rest)
  {
    forall i | 0 <= i < |s[1..]| ensures keep(s[1..][i]) <==> i in rest {
      assert s[1..][i] == s[i + 1];
      if i + 1 in idx {
        var j :| 0 <= j < |idx| && idx[j] == i + 1;
        assert rest[j - d] == i;
      }
      if i in rest {
        var j :| 0 <= j < |rest| && rest[j] == i;
        assert idx[j + d] == i + 1;
      }
    }
  }

  /** The picked elements of `s` are `s[0]`, when picked, followed by the
      picked elements `t` of `s[1..]`. */
  lemma PickCons<T>(s: seq<T>, picked: bool, t: seq<T>, r: seq<T>, idx: seq<nat>, d: nat, rest: seq<nat>)
    requires s != [] && d == (if picked then 1 else 0) && d <= |idx|
    requires r == (if picked then [s[0]] else []) + t
    requires forall j :: 0 <= j < |idx| ==> (idx[j] == 0 <==> j < d)
    requires |rest| == |idx| - d && forall j :: 0 <= j < |rest| ==> rest[j] == idx[j + d] - 1
    requires forall j :: 0 <= j < |idx| ==> idx[j] < |s|
    requires forall j :: 0 <= j < |rest| ==> rest[j] < |s| - 1
    requires |t| == |rest| && forall j :: 0 <= j < |rest| ==> t[j] == s[rest[j] + 1]
    ensures |r| == |idx|
    ensures forall j :: 0 <= j < |idx| ==> r[j] == s[idx[j]]
  {
    forall j | 0 <= j < |idx| ensures r[j] == s[idx[j]] {
      if j >= d {
        assert r[j] == t[j - d];
      }
    }
  }

  /** A filter that accepts everything in `s` gives `s` back. */
  lemma {:induction false} FilterKeepsAll<T(!new)>(s: seq<T>, keep: T -> bool)
    requires forall x :: x in s ==> keep(x)
    ensures Filter(s, keep) == s
  {
    if s != [] {
      FilterKeepsAll(s[1..], keep);
      assert s == [s[0]] + s[1..];
    }
  }

  /** A filter that accepts no position of `s` gives the empty list. */
  lemma {:induction false} FilterNone<T(!new)>(s: seq<T>, keep: T -> bool)
    requires forall i :: 0 <= i < |s| ==> !keep(s[i])
    ensures Filter(s, keep) == []
  {
    if s != [] {
      assert forall i :: 0 <= i < |s[1..]| ==> s[1..][i] == s[i + 1];
      FilterNone(s[1..], keep);
    }
  }

  /** A filter that accepts position `k` of `s` and no other gives `[s[k]]`. */
  lemma {:induction false} FilterSingle<T(!new)>(s: seq<T>, keep: T -> bool, k: nat)
    requires k < |s| && keep(s[k])
    requires forall i :: 0 <= i < |s| && i != k ==> !keep(s[i])
    ensures Filter(s, keep) == [s[k]]
  {
    assert forall i :: 0 <= i < |s[1..]| ==> s[1..][i] == s[i + 1];
    if k == 0 {
      FilterNone(s[1..], keep);
    } else {
      FilterSingle(s[1..], keep, k - 1);
    }
  }

  /** Filtering a duplicate-free list of options down to those chosen, when
      every chosen value is an option and none is chosen twice, gives the
      chosen values, each once. */
  lemma FilterChosen<T(!new)>(opts: seq<T>, chosen: seq<T>, keep: T -> bool)
    requires NoDup(opts) && NoDup(chosen)
    requires forall x :: x in chosen ==> x in opts
    requires forall x :: keep(x) <==> x in chosen
    ensures multiset(Filter(opts, keep)) == multiset(chosen)
  {
    FilterMultiset(opts, keep);
    forall x ensures multiset(Filter(opts, keep))[x] == multiset(chosen)[x] {
      NoDupMultiset(opts, x);
      NoDupMultiset(chosen, x);
    }
  }

  /** Two filters that agree on every element of `s` give the same result. */
  lemma {:induction false} FilterCongruent<T(!new)>(s: seq<T>, f: T -> bool, g: T -> bool)
    requires forall x :: x in s ==> f(x) == g(x)
    ensures Filter(s, f) == Filter(s, g)
  {
    if s != [] {
      FilterCongruent(s[1..], f, g);
    }
  }

  /** Filtering a duplicate-free list leaves it duplicate-free. */
  lemma FilterNoDup<T(!new)>(s: seq<T>, keep: T -> bool)
    requires NoDup(s)
    ensures NoDup(Filter(s, keep))
  {
    var r := Filter(s, keep);
    FilterMultiset(s, keep);
    forall i, j | 0 <= i < j < |r| ensures r[i] != r[j] {
      if r[i] == r[j] {
        MultisetAtLeastTwo(r, i, j);
        NoDupMultiset(s, r[i]);
        assert false;
      }
    }
  }

  /** Two positions holding the same value mean it occurs at least twice. */
  lemma MultisetAtLeastTwo<T(!new)>(s: seq<T>, i: nat, j: nat)
    requires i < j < |s| && s[i] == s[j]
    ensures multiset(s)[s[i]] >= 2
  {
    assert s == s[..i] + [s[i]] + s[i+1..j] + [s[j]] + s[j+1..];
  }

  /** In a duplicate-free list every value occurs at most once. */
  lemma {:induction false} NoDupMultiset<T(!new)>(s: seq<T>, x: T)
    requires NoDup(s)
    ensures multiset(s)[x] <= 1
  {
    if s != [] {
      assert NoDup(s[1..]);
      NoDupMultiset(s[1..], x);
      assert s == [s[0]] + s[1..];
      if s[0] == x {
        assert x !in s[1..];
      }
    }
  }

  /** A subsequence of a list whose keys strictly increase has strictly
      increasing keys itself. */
  lemma {:induction false} SubseqIncreasing<T(!new)>(a: seq<T>, b: seq<T>, key: T -> int)
    requires SubseqOf(a, b)
    requires forall i, j :: 0 <= i < j < |b| ==> key(b[i]) < key(b[j])
    ensures forall i, j :: 0 <= i < j < |a| ==> key(a[i]) < key(a[j])
    decreases |b|
  {
    if a != [] {
      if a[0] == b[0] && SubseqOf(a[1..], b[1..]) {
        SubseqIncreasing(a[1..], b[1..], key);
        SubseqMembers(a[1..], b[1..]);
        forall j | 0 < j < |a| ensures key(a[0]) < key(a[j]) {
          assert a[j] == a[1..][j - 1];
          assert a[j] in b[1..];
          var k :| 0 <= k < |b[1..]| && b[1..][k] == a[j];
          assert b[k + 1] == a[j];
        }
        forall i, j | 0 < i < j < |a| ensures key(a[i]) < key(a[j]) {
          assert a[i] == a[1..][i - 1] && a[j] == a[1..][j - 1];
        }
      } else {
        SubseqIncreasing(a, b[1..], key);
      }
    }
  }

  /** Every element of a subsequence is an element of the whole. */
  lemma {:induction false} SubseqMembers<T(!new)>(a: seq<T>, b: seq<T>)
    requires SubseqOf(a, b)
    ensures forall x :: x in a ==> x in b
    decreases |b|
  {
    if a != [] {
      if a[0] == b[0] && SubseqOf(a[1..], b[1..]) {
        SubseqMembers(a[1..], b[1..]);
        assert a == [a[0]] + a[1..] && b == [b[0]] + b[1..];
      } else {
        SubseqMembers(a, b[1..]);
        assert b == [b[0]] + b[1..];
      }
    }
  }
}
