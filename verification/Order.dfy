/** The orders the source sorts by, and sorting itself. `sort.Slice` is not
    stable, so the only facts used elsewhere about a sort are that it yields an
    ordered permutation, and that the ordered permutation is unique once the
    sort key separates the elements. */
module Order {

  import opened Sequences

  /** Go's string order (code points, lexicographic). */
  predicate StringLe(a: string, b: string)
    decreases a
  {
    a == "" || (b != "" && (a[0] < b[0] || (a[0] == b[0] && StringLe(a[1..], b[1..]))))
  }

  /** Comparison of composite keys, field by field. */
  predicate KeyLe(a: seq<string>, b: seq<string>)
    decreases a
  {
    a == [] || (b != [] && if a[0] == b[0] then KeyLe(a[1..], b[1..]) else StringLe(a[0], b[0]))
  }

  ghost predicate TotalPreorder<T(!new)>(le: (T, T) -> bool) {
    && (forall x, y :: le(x, y) || le(y, x))
    && (forall x, y, z :: le(x, y) && le(y, z) ==> le(x, z))
  }

  lemma {:induction false} StringLeTotal(a: string, b: string)
    ensures StringLe(a, b) || StringLe(b, a)
    ensures StringLe(a, b) && StringLe(b, a) ==> a == b
    decreases a
  {
    if a != "" && b != "" && a[0] == b[0] {
      StringLeTotal(a[1..], b[1..]);
      assert a == [a[0]] + a[1..] && b == [b[0]] + b[1..];
    }
  }

  /** a begins b, or at the first place where they differ a's character is smaller. */
  ghost predicate Precedes(a: string, b: string) {
    a <= b || exists k :: DiffersAt(a, b, k) && a[k] < b[k]
  }

  ghost predicate DiffersAt(a: string, b: string, k: int) {
    0 <= k < |a| && k < |b| && a[k] != b[k] && forall i :: 0 <= i < k ==> a[i] == b[i]
  }

  lemma {:induction false} StringLeIff(a: string, b: string)
    ensures StringLe(a, b) <==> Precedes(a, b)
    decreases a
  {
    if a != "" && b != "" && a[0] == b[0] {
      var s, t := a[1..], b[1..];
      StringLeIff(s, t);
      assert a == [a[0]] + s && b == [b[0]] + t;
      if k :| DiffersAt(s, t, k) && s[k] < t[k] {
        assert DiffersAt(a, b, k + 1);
      }
      if k :| DiffersAt(a, b, k) && a[k] < b[k] {
        assert DiffersAt(s, t, k - 1);
      }
    } else if a != "" && b != "" {
      assert DiffersAt(a, b, 0);
    }
  }

  lemma {:induction false} StringLeTransitive(a: string, b: string, c: string)
    requires StringLe(a, b) && StringLe(b, c)
    ensures StringLe(a, c)
    decreases a
  {
    if a != "" && a[0] == b[0] && b[0] == c[0] {
      StringLeTransitive(a[1..], b[1..], c[1..]);
    }
  }

  lemma {:induction false} KeyLeTotal(a: seq<string>, b: seq<string>)
    ensures KeyLe(a, b) || KeyLe(b, a)
    ensures KeyLe(a, b) && KeyLe(b, a) ==> a == b
    decreases a
  {
    if a != [] && b != [] {
      StringLeTotal(a[0], b[0]);
      if a[0] == b[0] {
        KeyLeTotal(a[1..], b[1..]);
        assert a == [a[0]] + a[1..] && b == [b[0]] + b[1..];
      }
    }
  }

  lemma {:induction false} KeyLeTransitive(a: seq<string>, b: seq<string>, c: seq<string>)
    requires KeyLe(a, b) && KeyLe(b, c)
    ensures KeyLe(a, c)
    decreases a
  {
    if a != [] {
      StringLeTotal(a[0], b[0]);
      StringLeTotal(b[0], c[0]);
      if a[0] == b[0] == c[0] {
        KeyLeTransitive(a[1..], b[1..], c[1..]);
      } else if a[0] != b[0] && b[0] != c[0] {
        StringLeTransitive(a[0], b[0], c[0]);
      }
    }
  }

  lemma KeyOrder()
    ensures forall a, b :: KeyLe(a, b) || KeyLe(b, a)
    ensures forall a, b :: KeyLe(a, b) && KeyLe(b, a) ==> a == b
    ensures forall a, b, c :: KeyLe(a, b) && KeyLe(b, c) ==> KeyLe(a, c)
  {
    forall a, b ensures KeyLe(a, b) || KeyLe(b, a) {
      KeyLeTotal(a, b);
    }
    forall a, b | KeyLe(a, b) && KeyLe(b, a) ensures a == b {
      KeyLeTotal(a, b);
    }
    forall a, b, c | KeyLe(a, b) && KeyLe(b, c) ensures KeyLe(a, c) {
      KeyLeTransitive(a, b, c);
    }
  }

  lemma {:induction false} KeyLeHead(a: seq<string>, b: seq<string>)
    requires a != [] && b != []
    ensures KeyLe(a, b) <==> if a[0] == b[0] then KeyLe(a[1..], b[1..]) else StringLe(a[0], b[0])
  {
  }

  /** Composite keys of one to four texts, written out. */
  lemma {:induction false} KeyLeOne(x: string, y: string)
    ensures KeyLe([x], [y]) <==> StringLe(x, y)
  {
    KeyLeHead([x], [y]);
    assert [x][1..] == [];
    StringLeTotal(x, x);
  }

  lemma {:induction false} KeyLeTwo(x: string, x': string, y: string, y': string)
    ensures KeyLe([x, x'], [y, y']) <==> if x == y then StringLe(x', y') else StringLe(x, y)
  {
    KeyLeHead([x, x'], [y, y']);
    assert [x, x'][1..] == [x'] && [y, y'][1..] == [y'];
    KeyLeOne(x', y');
  }

  lemma {:induction false} KeyLeThree(x: string, x': string, x'': string, y: string, y': string, y'': string)
    ensures KeyLe([x, x', x''], [y, y', y''])
       <==> if x != y then StringLe(x, y) else if x' != y' then StringLe(x', y') else StringLe(x'', y'')
  {
    KeyLeHead([x, x', x''], [y, y', y'']);
    assert [x, x', x''][1..] == [x', x''] && [y, y', y''][1..] == [y', y''];
    KeyLeTwo(x', x'', y', y'');
  }

  lemma {:induction false} KeyLeFour(x: string, x': string, x'': string, x3: string, y: string, y': string, y'': string, y3: string)
    ensures KeyLe([x, x', x'', x3], [y, y', y'', y3])
       <==> if x != y then StringLe(x, y)
            else if x' != y' then StringLe(x', y')
            else if x'' != y'' then StringLe(x'', y'')
            else StringLe(x3, y3)
  {
    KeyLeHead([x, x', x'', x3], [y, y', y'', y3]);
    assert [x, x', x'', x3][1..] == [x', x'', x3] && [y, y', y'', y3][1..] == [y', y'', y3];
    KeyLeThree(x', x'', x3, y', y'', y3);
  }

  lemma {:induction false} SingleKeyTie(x: string, y: string)
    requires KeyLe([x], [y]) && KeyLe([y], [x])
    ensures x == y
  {
    KeyLeTotal([x], [y]);
    assert [x][0] == [y][0];
  }

  lemma {:induction false} PairKeyTie(x: string, x': string, y: string, y': string)
    requires KeyLe([x, x'], [y, y']) && KeyLe([y, y'], [x, x'])
    ensures x == y && x' == y'
  {
    KeyLeTotal([x, x'], [y, y']);
    assert [x, x'][0] == [y, y'][0] && [x, x'][1] == [y, y'][1];
  }

  predicate SortedBy<T>(le: (T, T) -> bool, s: seq<T>) {
    forall i, j :: 0 <= i < j < |s| ==> le(s[i], s[j])
  }

  function InsertSorted<T>(le: (T, T) -> bool, s: seq<T>, x: T): (r: seq<T>)
    ensures multiset(r) == multiset(s) + multiset{x}
    ensures |r| == |s| + 1
  {
    if s == [] || le(s[|s| - 1], x) then s + [x]
    else
      assert s == s[..|s| - 1] + [s[|s| - 1]];
      InsertSorted(le, s[..|s| - 1], x) + [s[|s| - 1]]
  }

  function SortBy<T>(le: (T, T) -> bool, s: seq<T>): (r: seq<T>)
    ensures multiset(r) == multiset(s)
    ensures |r| == |s|
  {
    if s == [] then []
    else
      assert s == s[..|s| - 1] + [s[|s| - 1]];
      InsertSorted(le, SortBy(le, s[..|s| - 1]), s[|s| - 1])
  }

  lemma {:induction false} SortKeepsElements<T(!new)>(le: (T, T) -> bool, s: seq<T>)
    ensures forall x :: x in SortBy(le, s) <==> x in s
  {
    forall x ensures x in SortBy(le, s) <==> x in s {
      assert x in SortBy(le, s) <==> x in multiset(SortBy(le, s));
      assert x in s <==> x in multiset(s);
    }
  }

  lemma {:induction false} AppendSorted<T(!new)>(le: (T, T) -> bool, s: seq<T>, x: T)
    requires SortedBy(le, s)
    requires forall y :: y in s ==> le(y, x)
    ensures SortedBy(le, s + [x])
  {
  }

  lemma {:induction false} InsertSortedSorted<T(!new)>(le: (T, T) -> bool, s: seq<T>, x: T)
    requires TotalPreorder(le)
    requires SortedBy(le, s)
    ensures SortedBy(le, InsertSorted(le, s, x))
    decreases |s|
  {
    if s == [] {
    } else if le(s[|s| - 1], x) {
      forall y | y in s ensures le(y, x) {
        LastIsGreatest(le, s, y);
      }
      AppendSorted(le, s, x);
    } else {
      var n := |s| - 1;
      PrefixKeeps(le, s);
      InsertSortedSorted(le, s[..n], x);
      forall y | y in InsertSorted(le, s[..n], x) ensures le(y, s[n]) {
        assert y in multiset(InsertSorted(le, s[..n], x));
        if y != x {
          LastIsGreatest(le, s, y);
        }
      }
      AppendSorted(le, InsertSorted(le, s[..n], x), s[n]);
    }
  }

  lemma {:induction false} SortBySorted<T(!new)>(le: (T, T) -> bool, s: seq<T>)
    requires TotalPreorder(le)
    ensures SortedBy(le, SortBy(le, s))
    decreases |s|
  {
    if s != [] {
      var n := |s| - 1;
      SortBySorted(le, s[..n]);
      InsertSortedSorted(le, SortBy(le, s[..n]), s[n]);
    }
  }

  /** No two different elements of s tie under le. */
  ghost predicate Separates<T(!new)>(le: (T, T) -> bool, s: seq<T>) {
    forall x, y :: x in s && y in s && le(x, y) && le(y, x) ==> x == y
  }

  lemma {:induction false} LastIsGreatest<T(!new)>(le: (T, T) -> bool, s: seq<T>, x: T)
    requires TotalPreorder(le)
    requires SortedBy(le, s)
    requires x in s
    ensures le(x, s[|s| - 1])
  {
    var i :| 0 <= i < |s| && s[i] == x;
    assert le(x, x);
    if i < |s| - 1 {
      assert le(s[i], s[|s| - 1]);
    }
  }

  lemma {:induction false} LastAgree<T(!new)>(le: (T, T) -> bool, a: seq<T>, b: seq<T>)
    requires TotalPreorder(le)
    requires SortedBy(le, a) && SortedBy(le, b)
    requires multiset(a) == multiset(b)
    requires Separates(le, a)
    requires a != [] && b != []
    ensures a[|a| - 1] == b[|b| - 1]
  {
    var x, y := a[|a| - 1], b[|b| - 1];
    assert y in multiset(b) && x in multiset(a);
    LastIsGreatest(le, a, y);
    LastIsGreatest(le, b, x);
  }

  lemma {:induction false} PrefixKeeps<T(!new)>(le: (T, T) -> bool, a: seq<T>)
    requires a != []
    ensures SortedBy(le, a) ==> SortedBy(le, a[..|a| - 1])
    ensures Separates(le, a) ==> Separates(le, a[..|a| - 1])
  {
  }

  /** The ordered permutation is unique when the order separates the elements,
      whatever algorithm (stable or not) produced it. */
  lemma {:induction false} SortedUnique<T(!new)>(le: (T, T) -> bool, a: seq<T>, b: seq<T>)
    requires TotalPreorder(le)
    requires SortedBy(le, a) && SortedBy(le, b)
    requires multiset(a) == multiset(b)
    requires Separates(le, a)
    ensures a == b
    decreases |a|
  {
    SameLength(a, b);
    if a != [] {
      var n := |a| - 1;
      LastAgree(le, a, b);
      PrefixKeeps(le, a);
      PrefixKeeps(le, b);
      PrefixPermutation(a, b);
      SortedUnique(le, a[..n], b[..n]);
      assert a == a[..n] + [a[n]] && b == b[..n] + [b[n]];
    }
  }

  lemma {:induction false} SortByPermutation<T(!new)>(le: (T, T) -> bool, a: seq<T>, b: seq<T>)
    requires TotalPreorder(le)
    requires multiset(a) == multiset(b)
    requires Separates(le, a)
    ensures SortBy(le, a) == SortBy(le, b)
  {
    SortBySorted(le, a);
    SortBySorted(le, b);
    SortKeepsElements(le, a);
    SortedUnique(le, SortBy(le, a), SortBy(le, b));
  }

  lemma {:induction false} SortOne<T>(le: (T, T) -> bool, x: T)
    ensures SortBy(le, [x]) == [x]
  {
    assert [x][..0] == [];
  }

  lemma {:induction false} InsertOne<T>(le: (T, T) -> bool, x: T, y: T)
    ensures InsertSorted(le, [x], y) == if le(x, y) then [x, y] else [y, x]
  {
    assert [x][..0] == [];
    assert InsertSorted(le, [], y) == [y];
  }

  lemma {:induction false} SortTwo<T>(le: (T, T) -> bool, x: T, y: T)
    ensures SortBy(le, [x, y]) == if le(x, y) then [x, y] else [y, x]
  {
    hide InsertSorted;
    assert [x, y][..1] == [x];
    SortOne(le, x);
    InsertOne(le, x, y);
  }

  /** A text splits at its last slash in one way only. */
  lemma {:induction false} CutAtLastSlash(x: string, y: string, u: string, v: string)
    requires '/' !in u && '/' !in v && x + "/" + u == y + "/" + v
    ensures x == y && u == v
  {
    var s := x + "/" + u;
    assert s == y + "/" + v;
    assert s[|x|] == '/' && s[|y|] == '/';
    assert forall i :: |x| < i < |s| ==> s[i] == u[i - |x| - 1];
    assert forall i :: |y| < i < |s| ==> s[i] == v[i - |y| - 1];
    assert |x| == |y|;
    assert x == s[..|x|] && y == s[..|y|];
    assert u == s[|x| + 1..] && v == s[|y| + 1..];
  }
}
