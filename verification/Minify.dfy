/** Minimising a list of paths to those that no other path is a prefix of (`<=` on strings is "is a prefix of"). */
module Minify {

  /** The order of sort.Strings. */
  predicate Leq(a: string, b: string) {
    a == [] || (b != [] && (a[0] < b[0] || (a[0] == b[0] && Leq(a[1..], b[1..]))))
  }

  lemma {:induction false} LeqTotal(a: string, b: string)
    ensures Leq(a, b) || Leq(b, a)
    decreases |a|
  {
    if a != [] && b != [] && a[0] == b[0] {
      LeqTotal(a[1..], b[1..]);
    }
  }

  lemma {:induction false} LeqTransitive(a: string, b: string, c: string)
    requires Leq(a, b) && Leq(b, c)
    ensures Leq(a, c)
    decreases |a|
  {
    if a != [] && a[0] == b[0] == c[0] {
      LeqTransitive(a[1..], b[1..], c[1..]);
    }
  }

  lemma {:induction false} LeqAntisymmetric(a: string, b: string)
    requires Leq(a, b) && Leq(b, a)
    ensures a == b
    decreases |a|
  {
    if a != [] {
      LeqAntisymmetric(a[1..], b[1..]);
      assert a == [a[0]] + a[1..] && b == [b[0]] + b[1..];
    }
  }

  lemma {:induction false} PrefixIsLeq(a: string, b: string)
    requires a <= b
    ensures Leq(a, b)
    decreases |a|
  {
    if a != [] {
      PrefixIsLeq(a[1..], b[1..]);
    }
  }

  /** The strings that extend a are contiguous in the order: whatever lies between a and an extension of a extends a. */
  lemma {:induction false} ExtensionsAreContiguous(a: string, b: string, c: string)
    requires Leq(a, b) && Leq(b, c) && a <= c
    ensures a <= b
    decreases |a|
  {
    if a != [] {
      assert a[0] == c[0];
      ExtensionsAreContiguous(a[1..], b[1..], c[1..]);
      assert a == [a[0]] + a[1..] && b == [b[0]] + b[1..];
    }
  }

  predicate Sorted(s: seq<string>) {
    forall i, j :: 0 <= i < j < |s| ==> Leq(s[i], s[j])
  }

  lemma SortedCons(x: string, s: seq<string>)
    requires Sorted(s) && forall i :: 0 <= i < |s| ==> Leq(x, s[i])
    ensures Sorted([x] + s)
  {
    hide Leq;
    forall i, j | 0 <= i < j < |[x] + s| ensures Leq(([x] + s)[i], ([x] + s)[j]) {
      assert ([x] + s)[j] == s[j - 1];
    }
  }

  lemma BelowHead(x: string, s: seq<string>)
    requires Sorted(s) && s != [] && Leq(x, s[0])
    ensures forall i :: 0 <= i < |s| ==> Leq(x, s[i])
  {
    hide Leq;
    forall i | 0 < i < |s| ensures Leq(x, s[i]) {
      LeqTransitive(x, s[0], s[i]);
    }
  }

  lemma HeadBelowRest(s: seq<string>, x: string, rest: seq<string>)
    requires Sorted(s) && s != [] && Leq(s[0], x) && multiset(rest) == multiset(s[1..]) + multiset{x}
    ensures forall i :: 0 <= i < |rest| ==> Leq(s[0], rest[i])
  {
    hide Leq;
    forall i | 0 <= i < |rest| ensures Leq(s[0], rest[i]) {
      assert rest[i] in multiset(rest);
      assert rest[i] in s[1..] || rest[i] == x;
    }
  }

  function Insert(s: seq<string>, x: string): (r: seq<string>)
    requires Sorted(s)
    ensures Sorted(r) && multiset(r) == multiset(s) + multiset{x}
  {
    if s == [] then [x]
    else
      LeqTotal(x, s[0]);
      if Leq(x, s[0]) then
        BelowHead(x, s);
        SortedCons(x, s);
        [x] + s
      else
        var rest := Insert(s[1..], x);
        assert s == [s[0]] + s[1..];
        HeadBelowRest(s, x, rest);
        SortedCons(s[0], rest);
        [s[0]] + rest
  }

  function SortedCopy(s: seq<string>): (r: seq<string>)
    ensures Sorted(r) && multiset(r) == multiset(s) && |r| == |s|
  {
    if s == [] then []
    else
      assert s == [s[0]] + s[1..];
      var r := Insert(SortedCopy(s[1..]), s[0]);
      assert |multiset(r)| == |multiset(s)|;
      r
  }

  /** The library's in-place sort, by its contract. */
  method SortStrings(a: array<string>)
    modifies a
    ensures Sorted(a[..]) && multiset(a[..]) == multiset(old(a[..]))
  {
    var s := SortedCopy(a[..]);
    forall i | 0 <= i < a.Length {
      a[i] := s[i];
    }
    assert a[..] == s;
  }

  /**
   Strictly ascending members of the list, none a prefix of another, one of them a prefix of every path in the list.
   */
  predicate Minimal(result: seq<string>, paths: seq<string>) {
    && Sorted(result)
    && (forall i :: 0 <= i < |result| ==> result[i] in paths)
    && (forall i, j :: 0 <= i < |result| && 0 <= j < |result| && i != j ==> !(result[i] <= result[j]))
    && (forall p :: p in paths ==> Covered(p, result))
  }

  predicate Covered(p: string, result: seq<string>) {
    exists i :: 0 <= i < |result| && result[i] <= p
  }

  lemma CoverGrows(p: string, result: seq<string>, x: string)
    requires Covered(p, result) || x <= p
    ensures Covered(p, result + [x])
  {
    if Covered(p, result) {
      var i :| 0 <= i < |result| && result[i] <= p;
      assert (result + [x])[i] == result[i];
    } else {
      assert (result + [x])[|result|] == x;
    }
  }

  /** A path that does not extend the latest kept one neither extends nor is extended by any kept one. */
  lemma NextIsUnrelated(sorted: seq<string>, result: seq<string>, n: nat)
    requires Sorted(sorted) && 0 < n < |sorted| && result != []
    requires Minimal(result, sorted[..n])
    requires !(result[|result| - 1] <= sorted[n])
    ensures forall i :: 0 <= i < |result| ==>
        Leq(result[i], sorted[n]) && !(result[i] <= sorted[n]) && !(sorted[n] <= result[i])
  {
    var p, curr := sorted[n], result[|result| - 1];
    forall i | 0 <= i < |result| ensures Leq(result[i], p) && !(result[i] <= p) && !(p <= result[i]) {
      var k :| 0 <= k < n && sorted[k] == result[i];
      assert Leq(result[i], p);
      var l :| 0 <= l < n && sorted[l] == curr;
      assert Leq(curr, p);
      if result[i] <= p {
        if i < |result| - 1 {
          ExtensionsAreContiguous(result[i], curr, p);
        }
      } else if p <= result[i] {
        PrefixIsLeq(p, result[i]);
        LeqAntisymmetric(p, result[i]);
      }
    }
  }

  method Minify(paths: array<string>) returns (result: seq<string>)
    modifies paths
    ensures Minimal(result, old(paths[..]))
    ensures multiset(paths[..]) == multiset(old(paths[..]))
  {
    if paths.Length == 0 {
      return [];
    }
    SortStrings(paths);
    ghost var sorted := paths[..];
    var curr := paths[0];
    result := [curr];
    assert Covered(curr, result) by {
      assert result[0] <= curr;
    }
    var n := 1;
    while n < paths.Length
      invariant 1 <= n <= paths.Length
      invariant paths[..] == sorted
      invariant result != [] && curr == result[|result| - 1]
      invariant Minimal(result, sorted[..n])
    {
      var p := paths[n];
      assert sorted[..n + 1] == sorted[..n] + [p];
      if curr <= p {
        assert Covered(p, result);
      } else {
        NextIsUnrelated(sorted, result, n);
        forall q | q in sorted[..n + 1] ensures Covered(q, result + [p]) {
          CoverGrows(q, result, p);
        }
        curr := p;
        result := result + [curr];
      }
      n := n + 1;
    }
    assert sorted[..n] == sorted;
    SameMembers(result, sorted, old(paths[..]));
  }

  /** Being minimal depends only on which paths there are. */
  lemma SameMembers(result: seq<string>, a: seq<string>, b: seq<string>)
    requires Minimal(result, a) && multiset(a) == multiset(b)
    ensures Minimal(result, b)
  {
    assert forall x :: x in a <==> x in multiset(a);
    assert forall x :: x in b <==> x in multiset(b);
  }

  /** The kept paths are exactly those that no other path in the list is a prefix of. */
  lemma KeptIffNoShorter(result: seq<string>, paths: seq<string>, p: string)
    requires Minimal(result, paths)
    ensures p in result <==> p in paths && forall q :: q in paths && q <= p ==> q == p
  {
    if p in result {
      var j :| 0 <= j < |result| && result[j] == p;
      forall q | q in paths && q <= p ensures q == p {
        assert Covered(q, result);
        var i :| 0 <= i < |result| && result[i] <= q;
        assert result[i] <= p;
        assert i == j;
      }
    } else if p in paths {
      assert Covered(p, result);
      var i :| 0 <= i < |result| && result[i] <= p;
      assert result[i] in paths && result[i] != p;
    }
  }

  /** And so the result is determined by the list, however it was ordered. */
  lemma MinimalIsUnique(a: seq<string>, b: seq<string>, paths: seq<string>)
    requires Minimal(a, paths) && Minimal(b, paths)
    ensures a == b
  {
    forall p ensures p in a <==> p in b {
      KeptIffNoShorter(a, paths, p);
      KeptIffNoShorter(b, paths, p);
    }
    AscendingEqual(a, b);
  }

  predicate Ascending(s: seq<string>) {
    Sorted(s) && forall i, j :: 0 <= i < j < |s| ==> s[i] != s[j]
  }

  lemma {:induction false} AscendingEqual(a: seq<string>, b: seq<string>)
    requires Ascending(a) && Ascending(b) && forall p :: p in a <==> p in b
    ensures a == b
    decreases |a|
  {
    assert b != [] ==> b[0] in a;
    if a != [] {
      assert a[0] in b;
      LeqAntisymmetric(a[0], b[0]) by {
        var i :| 0 <= i < |b| && b[i] == a[0];
        var j :| 0 <= j < |a| && a[j] == b[0];
        PrefixIsLeq(a[0], a[0]);
        assert i == 0 || Leq(b[0], b[i]);
        assert j == 0 || Leq(a[0], a[j]);
        PrefixIsLeq(b[0], b[0]);
      }
      assert a == [a[0]] + a[1..] && b == [b[0]] + b[1..];
      forall p ensures p in a[1..] <==> p in b[1..] {
        assert p in a <==> p == a[0] || p in a[1..];
        assert p in b <==> p == b[0] || p in b[1..];
        assert a[0] !in a[1..] && b[0] !in b[1..];
      }
      AscendingEqual(a[1..], b[1..]);
    }
  }
}
