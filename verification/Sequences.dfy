/** Mapping, selecting and flattening sequences, and why none of the three
    depends on the order of its input as far as multisets are concerned. */
module Sequences {

  function Map<T, U>(f: T -> U, s: seq<T>): (r: seq<U>)
    ensures |r| == |s|
    ensures forall i :: 0 <= i < |s| ==> r[i] == f(s[i])
  {
    seq(|s|, i requires 0 <= i < |s| => f(s[i]))
  }

  function Select<T>(p: T -> bool, s: seq<T>): (r: seq<T>)
    ensures |r| <= |s|
  {
    if s == [] then []
    else
      var rest := Select(p, s[..|s| - 1]);
      if p(s[|s| - 1]) then rest + [s[|s| - 1]] else rest
  }

  lemma {:induction false} SelectMembers<T>(p: T -> bool, s: seq<T>, x: T)
    ensures x in Select(p, s) <==> x in s && p(x)
    decreases |s|
  {
    if s != [] {
      SelectMembers(p, s[..|s| - 1], x);
    }
  }

  lemma {:induction false} SelectAll<T>(p: T -> bool, s: seq<T>)
    requires forall i :: 0 <= i < |s| ==> p(s[i])
    ensures Select(p, s) == s
    decreases |s|
  {
    if s != [] {
      SelectAll(p, s[..|s| - 1]);
      assert s == s[..|s| - 1] + [s[|s| - 1]];
    }
  }

  lemma {:induction false} SelectNone<T>(p: T -> bool, s: seq<T>)
    requires forall i :: 0 <= i < |s| ==> !p(s[i])
    ensures Select(p, s) == []
    decreases |s|
  {
    if s != [] {
      SelectNone(p, s[..|s| - 1]);
    }
  }

  function Flatten<T>(s: seq<seq<T>>): (r: seq<T>)
  {
    if s == [] then [] else Flatten(s[..|s| - 1]) + s[|s| - 1]
  }

  lemma {:induction false} FlattenMembers<T>(s: seq<seq<T>>, x: T)
    ensures x in Flatten(s) <==> exists i :: 0 <= i < |s| && x in s[i]
    decreases |s|
  {
    if s != [] {
      FlattenMembers(s[..|s| - 1], x);
    }
  }

  predicate Distinct<T(==)>(s: seq<T>) {
    forall i, j :: 0 <= i < j < |s| ==> s[i] != s[j]
  }

  ghost function Elements<T>(s: seq<T>): set<T> {
    set x | x in s
  }

  function Without<T>(s: seq<T>, j: nat): (r: seq<T>)
    requires j < |s|
    ensures multiset(r) == multiset(s) - multiset{s[j]}
    ensures |r| == |s| - 1
  {
    assert s == s[..j] + [s[j]] + s[j + 1..];
    s[..j] + s[j + 1..]
  }

  /** The permutation step every order-freeness proof below rests on: a
      permutation of `a` holds a's last element somewhere. */
  lemma {:induction false} PermutationSplit<T>(a: seq<T>, b: seq<T>) returns (j: nat)
    requires a != []
    requires multiset(a) == multiset(b)
    ensures j < |b| && b[j] == a[|a| - 1]
    ensures multiset(a[..|a| - 1]) == multiset(Without(b, j))
  {
    var x := a[|a| - 1];
    assert a == a[..|a| - 1] + [x];
    assert x in multiset(a);
    assert x in b;
    j :| 0 <= j < |b| && b[j] == x;
  }

  lemma {:induction false} SameLength<T>(a: seq<T>, b: seq<T>)
    requires multiset(a) == multiset(b)
    ensures |a| == |b|
  {
    assert |multiset(a)| == |a| && |multiset(b)| == |b|;
  }

  lemma {:induction false} MultisetLast<T>(s: seq<T>)
    requires s != []
    ensures multiset(s) == multiset(s[..|s| - 1]) + multiset{s[|s| - 1]}
  {
    assert s == s[..|s| - 1] + [s[|s| - 1]];
  }

  lemma {:induction false} PrefixPermutation<T>(a: seq<T>, b: seq<T>)
    requires multiset(a) == multiset(b)
    requires a != [] && b != [] && a[|a| - 1] == b[|b| - 1]
    ensures multiset(a[..|a| - 1]) == multiset(b[..|b| - 1])
  {
    MultisetLast(a);
    MultisetLast(b);
    var x := a[|a| - 1];
    assert multiset(a[..|a| - 1]) == multiset(a) - multiset{x};
    assert multiset(b[..|b| - 1]) == multiset(b) - multiset{x};
  }

  lemma {:induction false} MapAppend<T, U>(f: T -> U, a: seq<T>, b: seq<T>)
    ensures Map(f, a + b) == Map(f, a) + Map(f, b)
  {
  }

  /** Selecting then mapping, split at a concatenation. */
  lemma {:induction false} MapSelectAppend<T, U>(f: T -> U, p: T -> bool, a: seq<T>, b: seq<T>)
    ensures Map(f, Select(p, a + b)) == Map(f, Select(p, a)) + Map(f, Select(p, b))
  {
    SelectAppend(p, a, b);
    MapAppend(f, Select(p, a), Select(p, b));
  }

  lemma {:induction false} MapWithout<T, U>(f: T -> U, s: seq<T>, j: nat)
    requires j < |s|
    ensures multiset(Map(f, s)) == multiset(Map(f, Without(s, j))) + multiset{f(s[j])}
  {
    assert Map(f, Without(s, j)) == Without(Map(f, s), j);
    assert Map(f, s)[j] == f(s[j]);
  }

  lemma {:induction false} MapPermutation<T, U>(f: T -> U, a: seq<T>, b: seq<T>)
    requires multiset(a) == multiset(b)
    ensures multiset(Map(f, a)) == multiset(Map(f, b))
    decreases |a|
  {
    SameLength(a, b);
    if a != [] {
      var n := |a| - 1;
      var j := PermutationSplit(a, b);
      MapPermutation(f, a[..n], Without(b, j));
      MapWithout(f, b, j);
      MapWithout(f, a, n);
      assert Without(a, n) == a[..n];
    }
  }

  lemma {:induction false} SelectAppend<T>(p: T -> bool, a: seq<T>, b: seq<T>)
    ensures Select(p, a + b) == Select(p, a) + Select(p, b)
    decreases |b|
  {
    if b == [] {
      assert a + b == a;
    } else {
      var n := |b| - 1;
      assert (a + b)[..|a + b| - 1] == a + b[..n];
      SelectAppend(p, a, b[..n]);
    }
  }

  lemma {:induction false} SelectOne<T>(p: T -> bool, x: T)
    ensures Select(p, [x]) == if p(x) then [x] else []
  {
    assert [x][..0] == [];
    assert Select(p, [x][..0]) == [];
  }

  lemma {:induction false} SelectMiddle<T>(p: T -> bool, l: seq<T>, x: T, r: seq<T>)
    ensures Select(p, l + [x] + r) == Select(p, l) + (if p(x) then [x] else []) + Select(p, r)
  {
    SelectAppend(p, l + [x], r);
    SelectAppend(p, l, [x]);
    SelectOne(p, x);
  }

  /** Taking one element out of the input takes it out of the selection. */
  lemma {:induction false} SelectWithout<T>(p: T -> bool, s: seq<T>, j: nat)
    requires j < |s|
    ensures multiset(Select(p, s))
         == multiset(Select(p, Without(s, j))) + (if p(s[j]) then multiset{s[j]} else multiset{})
  {
    assert s == s[..j] + [s[j]] + s[j + 1..];
    SelectMiddle(p, s[..j], s[j], s[j + 1..]);
    SelectAppend(p, s[..j], s[j + 1..]);
  }

  lemma {:induction false} SelectPermutation<T>(p: T -> bool, a: seq<T>, b: seq<T>)
    requires multiset(a) == multiset(b)
    ensures multiset(Select(p, a)) == multiset(Select(p, b))
    decreases |a|
  {
    SameLength(a, b);
    if a != [] {
      var n := |a| - 1;
      var j := PermutationSplit(a, b);
      SelectPermutation(p, a[..n], Without(b, j));
      SelectWithout(p, b, j);
      SelectWithout(p, a, n);
      assert Without(a, n) == a[..n];
    }
  }

  lemma {:induction false} FlattenAppend<T>(a: seq<seq<T>>, b: seq<seq<T>>)
    ensures Flatten(a + b) == Flatten(a) + Flatten(b)
    decreases |b|
  {
    if b == [] {
      assert a + b == a;
    } else {
      var n := |b| - 1;
      assert (a + b)[..|a + b| - 1] == a + b[..n];
      FlattenAppend(a, b[..n]);
    }
  }

  lemma {:induction false} FlattenWithout<T>(s: seq<seq<T>>, j: nat)
    requires j < |s|
    ensures multiset(Flatten(s)) == multiset(Flatten(Without(s, j))) + multiset(s[j])
  {
    var l, r := s[..j], s[j + 1..];
    assert s == l + [s[j]] + r;
    FlattenAppend(l + [s[j]], r);
    FlattenAppend(l, r);
    assert (l + [s[j]])[..j] == l;
  }

  lemma {:induction false} FlattenPermutation<T>(a: seq<seq<T>>, b: seq<seq<T>>)
    requires multiset(a) == multiset(b)
    ensures multiset(Flatten(a)) == multiset(Flatten(b))
    decreases |a|
  {
    SameLength(a, b);
    if a != [] {
      var n := |a| - 1;
      var j := PermutationSplit(a, b);
      FlattenPermutation(a[..n], Without(b, j));
      FlattenWithout(b, j);
      FlattenWithout(a, n);
      assert Without(a, n) == a[..n];
    }
  }

  lemma {:induction false} FlattenPointwise<T>(a: seq<seq<T>>, b: seq<seq<T>>)
    requires |a| == |b|
    requires forall i :: 0 <= i < |a| ==> multiset(a[i]) == multiset(b[i])
    ensures multiset(Flatten(a)) == multiset(Flatten(b))
    decreases |a|
  {
    if a != [] {
      var n := |a| - 1;
      FlattenPointwise(a[..n], b[..n]);
    }
  }

  /** Distinctness is a property of the multiset alone. */
  lemma {:induction false} DistinctPermutation<T>(a: seq<T>, b: seq<T>)
    requires multiset(a) == multiset(b)
    requires Distinct(a)
    ensures Distinct(b)
  {
    if !Distinct(b) {
      var i, j :| 0 <= i < j < |b| && b[i] == b[j];
      assert b == b[..i] + [b[i]] + b[i + 1..j] + [b[j]] + b[j + 1..];
      assert multiset(b)[b[i]] >= 2;
      CountDistinct(a, b[i]);
    }
  }

  lemma {:induction false} CountDistinct<T>(s: seq<T>, x: T)
    requires Distinct(s)
    ensures multiset(s)[x] <= 1
    decreases |s|
  {
    if s != [] {
      var n := |s| - 1;
      assert s == s[..n] + [s[n]];
      CountDistinct(s[..n], x);
      if s[n] == x {
        assert x !in s[..n];
      }
    }
  }

  /** Without repetition, the same elements are the same multiset. */
  lemma {:induction false} DistinctSame<T(!new)>(a: seq<T>, b: seq<T>)
    requires Distinct(a) && Distinct(b)
    requires forall x :: x in a <==> x in b
    ensures multiset(a) == multiset(b)
  {
    forall x ensures multiset(a)[x] == multiset(b)[x] {
      CountDistinct(a, x);
      CountDistinct(b, x);
      assert x in a <==> x in multiset(a);
      assert x in b <==> x in multiset(b);
    }
  }

  /** Selecting keeps distinctness under any key. */
  lemma {:induction false} SelectDistinct<T, U>(f: T -> U, p: T -> bool, s: seq<T>)
    requires Distinct(Map(f, s))
    ensures Distinct(Map(f, Select(p, s)))
    decreases |s|
  {
    if s != [] {
      var n := |s| - 1;
      assert Map(f, s)[..n] == Map(f, s[..n]);
      SelectDistinct(f, p, s[..n]);
      if p(s[n]) {
        var r := Select(p, s[..n]);
        assert Map(f, r + [s[n]]) == Map(f, r) + [f(s[n])];
        forall i | 0 <= i < |r| ensures f(r[i]) != f(s[n]) {
          SelectMembers(p, s[..n], r[i]);
          var j :| 0 <= j < n && s[..n][j] == r[i];
          assert Map(f, s)[j] != Map(f, s)[n];
        }
      }
    }
  }

  /** Concatenation keeps distinctness when the parts do not share. */
  lemma {:induction false} DistinctConcat<T>(a: seq<T>, b: seq<T>)
    requires Distinct(a) && Distinct(b)
    requires forall x :: x in a ==> x !in b
    ensures Distinct(a + b)
  {
    forall i, j | 0 <= i < j < |a + b| ensures (a + b)[i] != (a + b)[j] {
      if i < |a| <= j {
        assert (a + b)[i] in a && (a + b)[j] == b[j - |a|];
      }
    }
  }
}
