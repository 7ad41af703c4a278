/**
  The few MongoDB query operations the controllers use, as functions over an
  in-memory collection (a sequence in insertion order): `findOne`, `find`,
  `sort` and `limit`.
*/
module Query {
  import opened Wrappers

  /** `findOne(filter)`: the position of the first document that matches, if any. */
  function FindFirst<T>(s: seq<T>, p: T -> bool): (r: Option<nat>)
    ensures r.Some? ==> r.value < |s| && p(s[r.value])
    ensures r.Some? ==> forall j :: 0 <= j < r.value ==> !p(s[j])
    ensures r.None? <==> forall j :: 0 <= j < |s| ==> !p(s[j])
  {
    if s == [] then None
    else
      var k := FindFirst(s[..|s| - 1], p);
      if k.Some? then k
      else if p(s[|s| - 1]) then Some(|s| - 1)
      else None
  }

  /**
    `a` is a subsequence of `b`: `a` is `b` with some documents left out and
    the rest kept in their order (matched greedily from the end).
  */
  ghost predicate Subsequence<T>(a: seq<T>, b: seq<T>)
    decreases |b|
  {
    if a == [] then true
    else if b == [] then false
    else if a[|a| - 1] == b[|b| - 1] then Subsequence(a[..|a| - 1], b[..|b| - 1])
    else Subsequence(a, b[..|b| - 1])
  }

  /** `find(filter)`: the matching documents, each as often as it occurs, in collection order. */
  function Filter<T>(s: seq<T>, p: T -> bool): (r: seq<T>)
    ensures |r| <= |s|
    ensures forall i :: 0 <= i < |r| ==> p(r[i]) && r[i] in s
    ensures forall i :: 0 <= i < |s| && p(s[i]) ==> s[i] in r
    ensures forall i :: 0 <= i < |s| ==> multiset(r)[s[i]] == if p(s[i]) then multiset(s)[s[i]] else 0
    ensures Subsequence(r, s)
  {
    if s == [] then []
    else
      var f := Filter(s[..|s| - 1], p);
      var r := f + (if p(s[|s| - 1]) then [s[|s| - 1]] else []);
      LastSplit(s);
      FilterStep(s[..|s| - 1], s[|s| - 1], s, p, f, r);
      r
  }

  /** A non-empty sequence is its prefix followed by its last element. */
  lemma LastSplit<T>(s: seq<T>)
    requires s != []
    ensures s == s[..|s| - 1] + [s[|s| - 1]]
  {
  }

  /** Cutting a prefix of `s` one shorter gives the shorter prefix of `s`. */
  lemma PrefixOfPrefix<T>(s: seq<T>, k: nat)
    requires 0 < k <= |s|
    ensures s[..k][..k - 1] == s[..k - 1]
  {
  }

  /** One step of `Filter`: what holds of the matches of `init` holds of the matches of `init + [last]`. */
  lemma FilterStep<T>(init: seq<T>, last: T, s: seq<T>, p: T -> bool, f: seq<T>, r: seq<T>)
    requires s == init + [last] && r == f + (if p(last) then [last] else [])
    requires |f| <= |init|
    requires forall i :: 0 <= i < |f| ==> p(f[i]) && f[i] in init
    requires forall i :: 0 <= i < |init| && p(init[i]) ==> init[i] in f
    requires forall i :: 0 <= i < |init| ==> multiset(f)[init[i]] == if p(init[i]) then multiset(init)[init[i]] else 0
    requires Subsequence(f, init)
    ensures |r| <= |s|
    ensures forall i :: 0 <= i < |r| ==> p(r[i]) && r[i] in s
    ensures forall i :: 0 <= i < |s| && p(s[i]) ==> s[i] in r
    ensures forall i :: 0 <= i < |s| ==> multiset(r)[s[i]] == if p(s[i]) then multiset(s)[s[i]] else 0
    ensures Subsequence(r, s)
  {
    FilterMembers(init, last, s, p, f, r);
    FilterCounts(init, last, s, p, f, r);
    FilterOrder(init, last, s, p, f, r);
  }

  lemma FilterMembers<T>(init: seq<T>, last: T, s: seq<T>, p: T -> bool, f: seq<T>, r: seq<T>)
    requires s == init + [last] && r == f + (if p(last) then [last] else [])
    requires |f| <= |init|
    requires forall i :: 0 <= i < |f| ==> p(f[i]) && f[i] in init
    requires forall i :: 0 <= i < |init| && p(init[i]) ==> init[i] in f
    ensures |r| <= |s|
    ensures forall i :: 0 <= i < |r| ==> p(r[i]) && r[i] in s
    ensures forall i :: 0 <= i < |s| && p(s[i]) ==> s[i] in r
  {
    forall i | 0 <= i < |r|
      ensures p(r[i]) && r[i] in s
    {
      if i < |f| {
        assert r[i] == f[i];
      }
    }
    forall i | 0 <= i < |s| && p(s[i])
      ensures s[i] in r
    {
      if i < |init| {
        assert s[i] == init[i];
      }
    }
  }

  lemma FilterCounts<T>(init: seq<T>, last: T, s: seq<T>, p: T -> bool, f: seq<T>, r: seq<T>)
    requires s == init + [last] && r == f + (if p(last) then [last] else [])
    requires forall i :: 0 <= i < |f| ==> f[i] in init
    requires forall i :: 0 <= i < |init| ==> multiset(f)[init[i]] == if p(init[i]) then multiset(init)[init[i]] else 0
    ensures forall i :: 0 <= i < |s| ==> multiset(r)[s[i]] == if p(s[i]) then multiset(s)[s[i]] else 0
  {
    forall i | 0 <= i < |s|
      ensures multiset(r)[s[i]] == if p(s[i]) then multiset(s)[s[i]] else 0
    {
      var x := s[i];
      assert multiset(s)[x] == multiset(init)[x] + multiset([last])[x];
      assert multiset(r)[x] == multiset(f)[x] + multiset(if p(last) then [last] else [])[x];
      if i < |init| {
        assert init[i] == x;
      } else {
        assert x == last;
        if x !in init {
          assert x !in f;
        } else {
          var k :| 0 <= k < |init| && init[k] == x;
          assert multiset(f)[init[k]] == if p(init[k]) then multiset(init)[init[k]] else 0;
        }
      }
    }
  }

  lemma FilterOrder<T>(init: seq<T>, last: T, s: seq<T>, p: T -> bool, f: seq<T>, r: seq<T>)
    requires s == init + [last] && r == f + (if p(last) then [last] else [])
    requires forall i :: 0 <= i < |f| ==> p(f[i])
    requires Subsequence(f, init)
    ensures Subsequence(r, s)
  {
    assert s[..|s| - 1] == init;
    if p(last) {
      assert r[..|r| - 1] == f;
    } else {
      assert f != [] ==> f[|f| - 1] != last;
      assert r == f;
    }
  }

  /** Appending a document extends the result of a `find` by that document exactly when it matches. */
  lemma FilterAppend<T>(s: seq<T>, x: T, p: T -> bool)
    ensures Filter(s + [x], p) == Filter(s, p) + (if p(x) then [x] else [])
  {
    assert (s + [x])[..|s|] == s;
  }

  /** `limit(n)`: the first n documents, or all when there are fewer. */
  function Take<T>(s: seq<T>, n: nat): (r: seq<T>)
    ensures |r| == if |s| <= n then |s| else n
    ensures r == s[..|r|]
    ensures multiset(r) <= multiset(s)
  {
    if |s| <= n then s
    else
      assert s == s[..n] + s[n..];
      s[..n]
  }

  /** The order a `sort({ key: -1 })` produces. */
  predicate SortedDesc<T>(s: seq<T>, key: T -> real) {
    forall i, j :: 0 <= i < j < |s| ==> key(s[i]) >= key(s[j])
  }

  function InsertDesc<T>(x: T, s: seq<T>, key: T -> real): (r: seq<T>)
    requires SortedDesc(s, key)
    ensures SortedDesc(r, key)
    ensures multiset(r) == multiset(s) + multiset{x}
    ensures |r| == |s| + 1 && (r[0] == x || (s != [] && r[0] == s[0]))
  {
    if s == [] then [x]
    else if key(x) >= key(s[0]) then [x] + s
    else
      var rest := InsertDesc(x, s[1..], key);
      InsertDescStep(x, s, rest, key);
      [s[0]] + rest
  }

  lemma InsertDescStep<T>(x: T, s: seq<T>, rest: seq<T>, key: T -> real)
    requires SortedDesc(s, key) && s != [] && key(x) < key(s[0])
    requires SortedDesc(rest, key) && multiset(rest) == multiset(s[1..]) + multiset{x}
    requires |rest| == |s[1..]| + 1 && (rest[0] == x || (s[1..] != [] && rest[0] == s[1..][0]))
    ensures SortedDesc([s[0]] + rest, key)
    ensures multiset([s[0]] + rest) == multiset(s) + multiset{x}
  {
    assert s == [s[0]] + s[1..];
    assert key(s[0]) >= key(rest[0]);
    forall j | 0 < j < |rest| + 1
      ensures key(([s[0]] + rest)[0]) >= key(([s[0]] + rest)[j])
    {
      assert ([s[0]] + rest)[j] == rest[j - 1];
    }
  }

  /** `sort({ key: -1 })`: the same documents, largest key first. */
  function SortDesc<T>(s: seq<T>, key: T -> real): (r: seq<T>)
    ensures SortedDesc(r, key)
    ensures multiset(r) == multiset(s)
  {
    if s == [] then []
    else
      assert s == s[..|s| - 1] + [s[|s| - 1]];
      InsertDesc(s[|s| - 1], SortDesc(s[..|s| - 1], key), key)
  }

  /** Sorting keeps the number of documents. */
  lemma SortDescLength<T>(s: seq<T>, key: T -> real)
    ensures |SortDesc(s, key)| == |s|
  {
    assert |multiset(SortDesc(s, key))| == |multiset(s)|;
  }

  /** Two sequences with the same multiset have the same elements. */
  lemma SameElements<T>(a: seq<T>, b: seq<T>)
    requires multiset(a) == multiset(b)
    ensures forall i :: 0 <= i < |a| ==> a[i] in b
    ensures forall i :: 0 <= i < |b| ==> b[i] in a
  {
    forall i | 0 <= i < |a|
      ensures a[i] in b
    {
      assert a[i] in multiset(a);
    }
    forall i | 0 <= i < |b|
      ensures b[i] in a
    {
      assert b[i] in multiset(b);
    }
  }

  /** Taking element `j` out of `b`: the sequence splits around it and loses one copy of it. */
  lemma RemoveOne<T>(b: seq<T>, j: nat)
    requires j < |b|
    ensures b == b[..j] + [b[j]] + b[j + 1..]
    ensures multiset(b[..j] + b[j + 1..]) == multiset(b) - multiset{b[j]}
  {
    var u, x, v := b[..j], b[j], b[j + 1..];
    assert b[j..] == [x] + v;
    assert b == u + b[j..];
    assert b == u + [x] + v;
    assert multiset(b) == multiset(u) + multiset{x} + multiset(v);
  }
}
