/**
 Ordering by a total order given as a function. Python's `sorted` and SQL's
 `ORDER BY` are both modelled by `Sort`; `SortedUnique` says that the order and
 the elements determine the result, whatever algorithm produced it.
 */
module Sorting {

  ghost predicate TotalOrder<T(!new)>(le: (T, T) -> bool) {
    && (forall x, y :: le(x, y) || le(y, x))
    && (forall x, y :: le(x, y) && le(y, x) ==> x == y)
    && (forall x, y, z :: le(x, y) && le(y, z) ==> le(x, z))
  }

  ghost predicate Sorted<T>(s: seq<T>, le: (T, T) -> bool) {
    forall i, j :: 0 <= i < j < |s| ==> le(s[i], s[j])
  }

  function Insert<T>(x: T, s: seq<T>, le: (T, T) -> bool): (r: seq<T>)
    ensures multiset(r) == multiset(s) + multiset{x}
  {
    if s == [] || le(x, s[0]) then [x] + s
    else
      assert s == [s[0]] + s[1..];
      [s[0]] + Insert(x, s[1..], le)
  }

  function Sort<T>(s: seq<T>, le: (T, T) -> bool): (r: seq<T>)
    ensures multiset(r) == multiset(s)
    ensures |r| == |s|
  {
    if s == [] then []
    else
      assert s == [s[0]] + s[1..];
      var r := Insert(s[0], Sort(s[1..], le), le);
      assert |r| == |multiset(r)| && |s| == |multiset(s)|;
      r
  }

  lemma {:induction false} InsertSorted<T(!new)>(x: T, s: seq<T>, le: (T, T) -> bool)
    requires TotalOrder(le) && Sorted(s, le)
    ensures Sorted(Insert(x, s, le), le)
  {
    if s == [] || le(x, s[0]) {
    } else {
      InsertSorted(x, s[1..], le);
      var t := Insert(x, s[1..], le);
      forall i | 0 <= i < |t| ensures le(s[0], t[i]) {
        assert t[i] in multiset(t);
        assert t[i] == x || t[i] in multiset(s[1..]);
      }
    }
  }

  /** Sorting by a total order really sorts. */
  lemma {:induction false} SortSorted<T(!new)>(s: seq<T>, le: (T, T) -> bool)
    requires TotalOrder(le)
    ensures Sorted(Sort(s, le), le)
  {
    if s != [] {
      SortSorted(s[1..], le);
      InsertSorted(s[0], Sort(s[1..], le), le);
    }
  }

  /** The head of a sorted sequence is below each of its elements. */
  lemma {:induction false} SortedHead<T(!new)>(s: seq<T>, x: T, le: (T, T) -> bool)
    requires TotalOrder(le) && Sorted(s, le) && x in multiset(s)
    ensures le(s[0], x)
  {
    var i :| 0 <= i < |s| && s[i] == x;
  }

  lemma {:induction false} TailBag<T>(s: seq<T>)
    requires s != []
    ensures multiset(s[1..]) == multiset(s) - multiset{s[0]}
  {
    assert s == [s[0]] + s[1..];
  }

  /** Two sorted sequences with the same elements are the same sequence. */
  lemma {:induction false} SortedUnique<T(!new)>(a: seq<T>, b: seq<T>, le: (T, T) -> bool)
    requires TotalOrder(le)
    requires Sorted(a, le) && Sorted(b, le) && multiset(a) == multiset(b)
    ensures a == b
  {
    assert |a| == |multiset(a)| && |b| == |multiset(b)|;
    if a != [] {
      SortedHead(b, a[0], le);
      SortedHead(a, b[0], le);
      TailBag(a);
      TailBag(b);
      SortedUnique(a[1..], b[1..], le);
      assert a == [a[0]] + a[1..] && b == [b[0]] + b[1..];
    }
  }

  /** Hence sorting is a canonical form for the elements of a sequence. */
  lemma {:induction false} SortCanonical<T(!new)>(a: seq<T>, b: seq<T>, le: (T, T) -> bool)
    requires TotalOrder(le)
    ensures Sort(a, le) == Sort(b, le) <==> multiset(a) == multiset(b)
  {
    SortSorted(a, le);
    SortSorted(b, le);
    if multiset(a) == multiset(b) {
      SortedUnique(Sort(a, le), Sort(b, le), le);
    }
  }

  lemma {:induction false} SortPair<T(!new)>(a: T, b: T, le: (T, T) -> bool)
    requires TotalOrder(le) && le(a, b)
    ensures Sort([a, b], le) == [a, b] && Sort([b, a], le) == [a, b]
  {
    SortSorted([a, b], le);
    SortSorted([b, a], le);
    SortedUnique(Sort([a, b], le), [a, b], le);
    SortedUnique(Sort([b, a], le), [a, b], le);
  }

  /** Lexicographic order on strings by character code. */
  predicate StringLe(a: string, b: string) {
    a == "" || (b != "" && (a[0] < b[0] || (a[0] == b[0] && StringLe(a[1..], b[1..]))))
  }

  lemma {:induction false} StringLeTotal(a: string, b: string)
    ensures StringLe(a, b) || StringLe(b, a)
    ensures StringLe(a, b) && StringLe(b, a) ==> a == b
  {
    if a != "" && b != "" {
      StringLeTotal(a[1..], b[1..]);
      assert a == [a[0]] + a[1..] && b == [b[0]] + b[1..];
    }
  }

  lemma {:induction false} StringLeTransitive(a: string, b: string, c: string)
    requires StringLe(a, b) && StringLe(b, c)
    ensures StringLe(a, c)
  {
    if a != "" && b != "" && c != "" && a[0] == b[0] && b[0] == c[0] {
      StringLeTransitive(a[1..], b[1..], c[1..]);
    }
  }

  /** The strings agree before `k`, where `a` has the smaller character. */
  predicate SmallerAt(a: string, b: string, k: nat) {
    k < |a| && k < |b| && a[..k] == b[..k] && a[k] < b[k]
  }

  lemma {:induction false} SmallerInTails(a: string, b: string, k: nat)
    requires a != "" && b != "" && a[0] == b[0]
    ensures SmallerAt(a[1..], b[1..], k) <==> SmallerAt(a, b, k + 1)
  {
    if k < |a| - 1 && k < |b| - 1 {
      assert a[..k + 1] == [a[0]] + a[1..][..k] && b[..k + 1] == [b[0]] + b[1..][..k];
      assert a[1..][..k] == a[..k + 1][1..] && b[1..][..k] == b[..k + 1][1..];
    }
  }

  /** The order is lexicographic: a prefix comes first, else the smaller character where the strings first differ. */
  lemma {:induction false} StringLeExactly(a: string, b: string)
    ensures StringLe(a, b) <==> a <= b || exists k: nat :: SmallerAt(a, b, k)
  {
    if a != "" && b != "" && a[0] == b[0] {
      StringLeExactly(a[1..], b[1..]);
      assert a == [a[0]] + a[1..] && b == [b[0]] + b[1..];
      forall k: nat ensures SmallerAt(a[1..], b[1..], k) <==> SmallerAt(a, b, k + 1) {
        SmallerInTails(a, b, k);
      }
      if exists k: nat :: SmallerAt(a, b, k) {
        var k: nat :| SmallerAt(a, b, k);
        assert SmallerAt(a[1..], b[1..], k - 1);
      }
      if exists k: nat :: SmallerAt(a[1..], b[1..], k) {
        var k: nat :| SmallerAt(a[1..], b[1..], k);
        assert SmallerAt(a, b, k + 1);
      }
    } else if a != "" && b != "" {
      DifferentHeads(a, b);
    }
  }

  lemma {:induction false} DifferentHeads(a: string, b: string)
    requires a != "" && b != "" && a[0] != b[0]
    ensures !(a <= b)
    ensures a[0] < b[0] <==> exists k: nat :: SmallerAt(a, b, k)
  {
    assert a[..0] == b[..0];
    assert SmallerAt(a, b, 0) <==> a[0] < b[0];
    forall k: nat ensures SmallerAt(a, b, k) ==> k == 0 {
      if 0 < k < |a| && k < |b| {
        assert a[..k][0] == a[0] && b[..k][0] == b[0];
      }
    }
  }

  lemma {:induction false} StringOrder()
    ensures TotalOrder(StringLe)
  {
    forall x: string, y: string
      ensures StringLe(x, y) || StringLe(y, x)
      ensures StringLe(x, y) && StringLe(y, x) ==> x == y
    { StringLeTotal(x, y); }
    forall x: string, y: string, z: string | StringLe(x, y) && StringLe(y, z) ensures StringLe(x, z) {
      StringLeTransitive(x, y, z);
    }
  }
}
