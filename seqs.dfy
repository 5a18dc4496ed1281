/** Sequence helpers shared by the modules: an Option type, JavaScript's
    `Array.prototype.filter` and the index-based filter the resume editor
    uses to delete one entry. */
module Seqs {

  datatype Option<+T> = None | Some(value: T)

  /** `a` is obtained from `b` by deleting elements, keeping their order. */
  predicate IsSubsequence<T(==)>(a: seq<T>, b: seq<T>)
    decreases |b|
  {
    a == [] || (b != [] && ((a[0] == b[0] && IsSubsequence(a[1..], b[1..])) || IsSubsequence(a, b[1..])))
  }

  /** `s.filter(p)`: the elements of `s` that satisfy `p`, in their order. */
  function Filter<T(==,!new)>(p: T -> bool, s: seq<T>): (r: seq<T>)
    ensures |r| <= |s|
    ensures forall i :: 0 <= i < |r| ==> p(r[i])
    ensures forall x :: x in r <==> x in s && p(x)
    ensures forall x :: multiset(r)[x] == if p(x) then multiset(s)[x] else 0
  {
    if s == [] then []
    else
      var rest := Filter(p, s[1..]);
      assert s == [s[0]] + s[1..];
      if p(s[0]) then [s[0]] + rest else rest
  }

  /** Filtering keeps the relative order of the survivors. */
  lemma {:induction false} FilterIsSubsequence<T(!new)>(p: T -> bool, s: seq<T>)
    ensures IsSubsequence(Filter(p, s), s)
  {
    if s != [] {
      FilterIsSubsequence(p, s[1..]);
      var r := Filter(p, s);
      if p(s[0]) {
        assert r[0] == s[0] && r[1..] == Filter(p, s[1..]);
      } else {
        assert r == Filter(p, s[1..]);
      }
    }
  }

  /** When every element passes, filtering changes nothing. */
  lemma {:induction false} FilterAll<T(!new)>(p: T -> bool, s: seq<T>)
    requires forall i :: 0 <= i < |s| ==> p(s[i])
    ensures Filter(p, s) == s
  {
    if s != [] {
      FilterAll(p, s[1..]);
      assert [s[0]] + s[1..] == s;
    }
  }

  /** Filtering by a predicate and by its negation splits the sequence. */
  lemma {:induction false} FilterPartition<T(!new)>(p: T -> bool, q: T -> bool, s: seq<T>)
    requires forall x :: q(x) == !p(x)
    ensures |Filter(p, s)| + |Filter(q, s)| == |s|
  {
    if s != [] {
      FilterPartition(p, q, s[1..]);
    }
  }

  /** The positions of `s` whose element satisfies `p`. */
  ghost function Positions<T>(p: T -> bool, s: seq<T>): set<int>
  {
    set i | 0 <= i < |s| && p(s[i])
  }

  /** Filtering keeps one element per position that satisfies `p`. */
  lemma {:induction false} FilterCountsPositions<T(!new)>(p: T -> bool, s: seq<T>)
    ensures |Filter(p, s)| == |Positions(p, s)|
    decreases |s|
  {
    if s != [] {
      FilterCountsPositions(p, s[..|s| - 1]);
      FilterCountsLast(p, s);
      PositionsOfLast(p, s);
    }
  }

  /** The last element adds one to the filtered length when it satisfies
      `p`. */
  lemma {:induction false} FilterCountsLast<T(!new)>(p: T -> bool, s: seq<T>)
    requires s != []
    ensures |Filter(p, s)| == |Filter(p, s[..|s| - 1])| + if p(s[|s| - 1]) then 1 else 0
    decreases |s|
  {
    if |s| > 1 {
      var init := s[..|s| - 1];
      FilterCountsLast(p, s[1..]);
      assert s[1..][..|s| - 2] == init[1..];
      assert s[1..][|s| - 2] == s[|s| - 1];
      assert init[0] == s[0];
    }
  }

  /** The last element adds its own position, when it satisfies `p`, to
      the positions of the ones before it. */
  lemma PositionsOfLast<T>(p: T -> bool, s: seq<T>)
    requires s != []
    ensures |Positions(p, s)| == |Positions(p, s[..|s| - 1])| + if p(s[|s| - 1]) then 1 else 0
  {
    var n := |s| - 1;
    var init := s[..n];
    var before := Positions(p, init);
    var extra := if p(s[n]) then {n} else {};
    forall i ensures i in Positions(p, s) <==> i in before + extra {
      if 0 <= i < n {
        assert init[i] == s[i];
      }
    }
    assert Positions(p, s) == before + extra;
    assert n !in before;
  }

  /** `s.filter((_, i) => i !== index)`: every element except the one at
      position `index`; any other `index` keeps all of them. */
  function WithoutIndex<T>(s: seq<T>, index: int): (r: seq<T>)
    ensures 0 <= index < |s| ==> r == s[..index] + s[index + 1..]
    ensures !(0 <= index < |s|) ==> r == s
  {
    if s == [] then []
    else
      var rest := WithoutIndex(s[1..], index - 1);
      assert s == [s[0]] + s[1..];
      if index == 0 then rest else [s[0]] + rest
  }

  /** No element occurs twice. */
  predicate NoDuplicates<T(==)>(s: seq<T>)
  {
    forall i, j :: 0 <= i < j < |s| ==> s[i] != s[j]
  }

  /** Filtering a sequence without repeats gives one without repeats. */
  lemma {:induction false} FilterKeepsNoDuplicates<T(!new)>(p: T -> bool, s: seq<T>)
    requires NoDuplicates(s)
    ensures NoDuplicates(Filter(p, s))
  {
    if s != [] {
      assert NoDuplicates(s[1..]) by {
        forall i, j | 0 <= i < j < |s[1..]| ensures s[1..][i] != s[1..][j] {
          assert s[1..][i] == s[i + 1] && s[1..][j] == s[j + 1];
        }
      }
      FilterKeepsNoDuplicates(p, s[1..]);
      var rest := Filter(p, s[1..]);
      if p(s[0]) {
        assert s[0] !in s[1..] by {
          forall k | 0 <= k < |s[1..]| ensures s[1..][k] != s[0] {
            assert s[1..][k] == s[k + 1];
          }
        }
        assert Filter(p, s) == [s[0]] + rest;
        ConsKeepsNoDuplicates(s[0], rest);
      } else {
        assert Filter(p, s) == rest;
      }
    }
  }

  /** Putting a new element in front keeps a sequence free of repeats. */
  lemma ConsKeepsNoDuplicates<T>(x: T, rest: seq<T>)
    requires NoDuplicates(rest) && x !in rest
    ensures NoDuplicates([x] + rest)
  {
    var r := [x] + rest;
    forall i, j | 0 <= i < j < |r| ensures r[i] != r[j] {
      assert r[j] == rest[j - 1];
      if i > 0 {
        assert r[i] == rest[i - 1];
      }
    }
  }
}
