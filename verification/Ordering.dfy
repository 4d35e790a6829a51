/** Stable sorting by a total preorder, and the code-point order on strings. */
module Ordering {

  ghost predicate TotalPreorder<T(!new)>(le: (T, T) -> bool) {
    && (forall a, b :: le(a, b) || le(b, a))
    && (forall a, b, c :: le(a, b) && le(b, c) ==> le(a, c))
  }

  ghost predicate SortedBy<T>(s: seq<T>, le: (T, T) -> bool) {
    forall i, j | 0 <= i < j < |s| :: le(s[i], s[j])
  }

  function Insert<T>(x: T, s: seq<T>, le: (T, T) -> bool): seq<T> {
    if s == [] || le(x, s[0]) then [x] + s else [s[0]] + Insert(x, s[1..], le)
  }

  /** Elements that compare equal keep their relative order. */
  function Sort<T>(s: seq<T>, le: (T, T) -> bool): seq<T> {
    if s == [] then [] else Insert(s[0], Sort(s[1..], le), le)
  }

  lemma {:induction false} InsertKeepsElements<T>(x: T, s: seq<T>, le: (T, T) -> bool)
    ensures multiset(Insert(x, s, le)) == multiset(s) + multiset{x}
  {
    if !(s == [] || le(x, s[0])) {
      InsertKeepsElements(x, s[1..], le);
      assert s == [s[0]] + s[1..];
    }
  }

  lemma {:induction false} SortKeepsElements<T>(s: seq<T>, le: (T, T) -> bool)
    ensures multiset(Sort(s, le)) == multiset(s)
    ensures |Sort(s, le)| == |s|
  {
    if s != [] {
      SortKeepsElements(s[1..], le);
      InsertKeepsElements(s[0], Sort(s[1..], le), le);
      assert s == [s[0]] + s[1..];
    }
    assert |multiset(Sort(s, le))| == |multiset(s)|;
  }

  lemma InMultiset<T>(s: seq<T>, t: seq<T>, x: T)
    requires multiset(s) == multiset(t)
    ensures x in s <==> x in t
  {
    assert x in s <==> x in multiset(s);
    assert x in t <==> x in multiset(t);
  }

  lemma {:induction false} InsertKeepsOrder<T(!new)>(x: T, s: seq<T>, le: (T, T) -> bool)
    requires TotalPreorder(le) && SortedBy(s, le)
    ensures SortedBy(Insert(x, s, le), le)
  {
    if s == [] || le(x, s[0]) {
    } else {
      InsertKeepsOrder(x, s[1..], le);
      var r := Insert(x, s[1..], le);
      InsertKeepsElements(x, s[1..], le);
      forall j | 0 <= j < |r| ensures le(s[0], r[j]) {
        assert r[j] in multiset(r);
        assert r[j] == x || r[j] in s[1..];
      }
    }
  }

  lemma {:induction false} SortOrders<T(!new)>(s: seq<T>, le: (T, T) -> bool)
    requires TotalPreorder(le)
    ensures SortedBy(Sort(s, le), le)
  {
    if s != [] {
      SortOrders(s[1..], le);
      InsertKeepsOrder(s[0], Sort(s[1..], le), le);
    }
  }

  lemma TailOf<T>(s: seq<T>)
    requires s != []
    ensures s == [s[0]] + s[1..] && multiset(s[1..]) == multiset(s) - multiset{s[0]}
    ensures forall a | a in s[1..] :: a in s
  {
    assert s == [s[0]] + s[1..];
  }

  /** Sorted sequences of the same elements agree when no two distinct elements tie. */
  lemma {:induction false} SortedIsUnique<T(!new)>(s: seq<T>, t: seq<T>, le: (T, T) -> bool)
    requires multiset(s) == multiset(t) && SortedBy(s, le) && SortedBy(t, le)
    requires forall a, b | a in s && b in s && le(a, b) && le(b, a) :: a == b
    ensures s == t
  {
    assert |multiset(s)| == |multiset(t)|;
    if s != [] {
      InMultiset(s, t, s[0]);
      InMultiset(s, t, t[0]);
      assert s[0] == t[0];
      TailOf(s);
      TailOf(t);
      SortedIsUnique(s[1..], t[1..], le);
    }
  }

  ghost predicate Distinct<T>(s: seq<T>) {
    forall i, j | 0 <= i < j < |s| :: s[i] != s[j]
  }

  lemma {:induction false} DistinctMultiplicity<T>(s: seq<T>, e: T)
    requires Distinct(s)
    ensures multiset(s)[e] <= 1
  {
    if s != [] {
      assert s == [s[0]] + s[1..];
      DistinctMultiplicity(s[1..], e);
      if s[0] == e {
        assert forall k | 0 <= k < |s| - 1 :: s[1..][k] == s[k + 1];
        assert e !in s[1..];
      }
    }
  }

  lemma TwiceInMultiset<T>(s: seq<T>, i: nat, j: nat)
    requires i < j < |s| && s[i] == s[j]
    ensures 2 <= multiset(s)[s[i]]
  {
    assert s == s[..j] + [s[j]] + s[j + 1..];
    assert s[i] in s[..j];
  }

  lemma PermutationKeepsDistinct<T>(s: seq<T>, t: seq<T>)
    requires multiset(s) == multiset(t) && Distinct(s)
    ensures Distinct(t)
  {
    forall i, j | 0 <= i < j < |t| ensures t[i] != t[j] {
      DistinctMultiplicity(s, t[i]);
      if t[i] == t[j] {
        TwiceInMultiset(t, i, j);
      }
    }
  }

  // ---------------------------------------------------------------- strings

  predicate TextLe(a: string, b: string) {
    || a == []
    || (b != [] && (a[0] < b[0] || (a[0] == b[0] && TextLe(a[1..], b[1..]))))
  }

  lemma {:induction false} TextLeTotal(a: string, b: string)
    ensures TextLe(a, b) || TextLe(b, a)
  {
    if a != [] && b != [] {
      TextLeTotal(a[1..], b[1..]);
    }
  }

  lemma {:induction false} TextLeTransitive(a: string, b: string, c: string)
    requires TextLe(a, b) && TextLe(b, c)
    ensures TextLe(a, c)
  {
    if a != [] && a[0] == b[0] && b[0] == c[0] {
      TextLeTransitive(a[1..], b[1..], c[1..]);
    }
  }

  lemma {:induction false} TextLeAntisymmetric(a: string, b: string)
    requires TextLe(a, b) && TextLe(b, a)
    ensures a == b
  {
    if a != [] && b != [] {
      TextLeAntisymmetric(a[1..], b[1..]);
      assert a == [a[0]] + a[1..] && b == [b[0]] + b[1..];
    }
  }

  /** Comparison of keys made of two integers and two strings, component by component. */
  datatype Key = Key(first: int, second: int, third: string, fourth: string)

  predicate KeyLe(a: Key, b: Key) {
    if a.first != b.first then a.first < b.first
    else if a.second != b.second then a.second < b.second
    else if a.third != b.third then TextLe(a.third, b.third)
    else TextLe(a.fourth, b.fourth)
  }

  lemma KeyLeIsTotalOrder()
    ensures TotalPreorder(KeyLe)
    ensures forall a, b :: KeyLe(a, b) && KeyLe(b, a) ==> a == b
  {
    forall a: Key, b: Key ensures KeyLe(a, b) || KeyLe(b, a) {
      TextLeTotal(a.third, b.third);
      TextLeTotal(a.fourth, b.fourth);
    }
    forall a: Key, b: Key, c: Key | KeyLe(a, b) && KeyLe(b, c) ensures KeyLe(a, c) {
      if a.first == b.first == c.first && a.second == b.second == c.second {
        if a.third == b.third == c.third {
          TextLeTransitive(a.fourth, b.fourth, c.fourth);
        } else if a.third != b.third && b.third != c.third {
          TextLeTransitive(a.third, b.third, c.third);
          if a.third == c.third {
            TextLeAntisymmetric(a.third, b.third);
          }
        }
      }
    }
    forall a: Key, b: Key | KeyLe(a, b) && KeyLe(b, a) ensures a == b {
      if a.first == b.first && a.second == b.second {
        if a.third != b.third {
          TextLeAntisymmetric(a.third, b.third);
        } else {
          TextLeAntisymmetric(a.fourth, b.fourth);
        }
      }
    }
  }

  /** Texts compare by code points: a prefix comes first, otherwise the first difference decides. */
  lemma {:induction false} TextLeIff(a: string, b: string)
    ensures TextLe(a, b) <==> a <= b || exists i | 0 <= i < |a| && i < |b| :: a[..i] == b[..i] && a[i] < b[i]
  {
    if a != [] && b != [] {
      TextLeIff(a[1..], b[1..]);
      if a[0] == b[0] {
        assert a <= b <==> a[1..] <= b[1..];
        if i :| 0 <= i < |a[1..]| && i < |b[1..]| && a[1..][..i] == b[1..][..i] && a[1..][i] < b[1..][i] {
          assert a[..i + 1] == [a[0]] + a[1..][..i] && b[..i + 1] == [b[0]] + b[1..][..i];
          assert a[i + 1] < b[i + 1];
        }
        if i :| 0 <= i < |a| && i < |b| && a[..i] == b[..i] && a[i] < b[i] {
          assert a[1..][..i - 1] == a[..i][1..] && b[1..][..i - 1] == b[..i][1..];
          assert a[1..][i - 1] < b[1..][i - 1];
        }
      } else if a[0] < b[0] {
        assert a[..0] == b[..0];
      } else {
        assert forall i | 0 < i < |a| && i < |b| :: a[..i][0] == a[0] && b[..i][0] == b[0];
      }
    }
  }

  /** Keys compare by their parts, the first difference decides. */
  lemma KeyLeIff(a: Key, b: Key)
    ensures KeyLe(a, b) <==>
              || a.first < b.first
              || (a.first == b.first && a.second < b.second)
              || (a.first == b.first && a.second == b.second && a.third != b.third && TextLe(a.third, b.third))
              || (a.first == b.first && a.second == b.second && a.third == b.third && TextLe(a.fourth, b.fourth))
  {
  }
}
