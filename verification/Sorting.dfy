/** Sorting by a pair of strings compared code unit by code unit. */
module Sorting {

  /** The host language's `<` on strings. */
  predicate Less(a: string, b: string) {
    b != [] && (a == [] || a[0] < b[0] || (a[0] == b[0] && Less(a[1..], b[1..])))
  }

  lemma {:induction false} LessTotal(a: string, b: string)
    ensures a == b || Less(a, b) || Less(b, a)
    ensures !(Less(a, b) && Less(b, a)) && (a == b ==> !Less(a, b))
  {
    if a != [] && b != [] && a[0] == b[0] {
      LessTotal(a[1..], b[1..]);
      assert a == [a[0]] + a[1..] && b == [b[0]] + b[1..];
    }
  }

  lemma {:induction false} LessTrans(a: string, b: string, c: string)
    requires Less(a, b) && Less(b, c)
    ensures Less(a, c)
  {
    if a != [] && a[0] == b[0] && b[0] == c[0] {
      LessTrans(a[1..], b[1..], c[1..]);
    }
  }

  datatype Pair = Pair(major: string, minor: string)

  predicate PairLess(a: Pair, b: Pair) {
    Less(a.major, b.major) || (a.major == b.major && Less(a.minor, b.minor))
  }

  lemma PairTotal(a: Pair, b: Pair)
    ensures a == b || PairLess(a, b) || PairLess(b, a)
    ensures !(PairLess(a, b) && PairLess(b, a)) && (a == b ==> !PairLess(a, b))
  {
    LessTotal(a.major, b.major);
    LessTotal(a.minor, b.minor);
  }

  lemma PairTrans(a: Pair, b: Pair, c: Pair)
    requires PairLess(a, b) && PairLess(b, c)
    ensures PairLess(a, c)
  {
    if Less(a.major, b.major) && Less(b.major, c.major) {
      LessTrans(a.major, b.major, c.major);
    }
    if Less(a.minor, b.minor) && Less(b.minor, c.minor) {
      LessTrans(a.minor, b.minor, c.minor);
    }
  }

  predicate Ascending(s: seq<Pair>) {
    forall i, j :: 0 <= i < j < |s| ==> PairLess(s[i], s[j])
  }

  /** A strictly ascending list is determined by its elements. */
  lemma {:induction false} AscendingUnique(a: seq<Pair>, b: seq<Pair>)
    requires Ascending(a) && Ascending(b) && forall x :: x in a <==> x in b
    ensures a == b
  {
    if a == [] {
      HeadIsElement(b);
    } else {
      assert a[0] in b && b[0] in a;
      PairTotal(a[0], b[0]);
      HeadIsLeast(a, b[0]);
      HeadIsLeast(b, a[0]);
      assert a[0] == b[0];
      TailOmitsHead(a);
      TailOmitsHead(b);
      assert a == [a[0]] + a[1..] && b == [b[0]] + b[1..];
      forall x ensures x in a[1..] <==> x in b[1..] {
        assert x in a[1..] <==> x in a && x != a[0];
        assert x in b[1..] <==> x in b && x != b[0];
      }
      AscendingUnique(a[1..], b[1..]);
    }
  }

  lemma HeadIsElement(a: seq<Pair>)
    ensures a == [] || a[0] in a
  {
  }

  lemma HeadIsLeast(a: seq<Pair>, x: Pair)
    requires Ascending(a) && x in a
    ensures x == a[0] || PairLess(a[0], x)
  {
  }

  lemma TailOmitsHead(a: seq<Pair>)
    requires Ascending(a) && a != []
    ensures a[0] !in a[1..]
  {
    PairTotal(a[0], a[0]);
  }

  // ---- A stable sort --------------------------------------------------------------------------

  function Keys<T>(s: seq<T>, key: T -> Pair): (r: seq<Pair>)
    ensures |r| == |s| && forall i :: 0 <= i < |s| ==> r[i] == key(s[i])
  {
    seq(|s|, i requires 0 <= i < |s| => key(s[i]))
  }

  function Insert<T>(x: T, s: seq<T>, key: T -> Pair): seq<T> {
    if s == [] || PairLess(key(x), key(s[0])) then [x] + s else [s[0]] + Insert(x, s[1..], key)
  }

  function Sort<T>(s: seq<T>, key: T -> Pair): seq<T> {
    if s == [] then [] else Insert(s[|s| - 1], Sort(s[..|s| - 1], key), key)
  }

  predicate Distinct<T(!new)>(s: seq<T>, key: T -> Pair) {
    forall i, j :: 0 <= i < j < |s| ==> key(s[i]) != key(s[j])
  }

  lemma {:induction false} InsertKeepsElements<T>(x: T, s: seq<T>, key: T -> Pair)
    ensures multiset(Insert(x, s, key)) == multiset(s) + multiset{x}
  {
    if s != [] && !PairLess(key(x), key(s[0])) {
      InsertKeepsElements(x, s[1..], key);
      assert s == [s[0]] + s[1..];
    }
  }

  lemma {:induction false} SortKeepsElements<T>(s: seq<T>, key: T -> Pair)
    ensures multiset(Sort(s, key)) == multiset(s)
  {
    if s != [] {
      SortKeepsElements(s[..|s| - 1], key);
      InsertKeepsElements(s[|s| - 1], Sort(s[..|s| - 1], key), key);
      assert s == s[..|s| - 1] + [s[|s| - 1]];
    }
  }

  lemma SameElements<T>(s: seq<T>, key: T -> Pair, x: T)
    ensures x in Sort(s, key) <==> x in s
  {
    SortKeepsElements(s, key);
    assert x in multiset(Sort(s, key)) <==> x in multiset(s);
  }

  lemma {:induction false} InsertAscends<T>(x: T, s: seq<T>, key: T -> Pair)
    requires Ascending(Keys(s, key)) && forall i :: 0 <= i < |s| ==> key(s[i]) != key(x)
    ensures Ascending(Keys(Insert(x, s, key), key))
  {
    if s == [] {
    } else if PairLess(key(x), key(s[0])) {
      ConsAscends(x, s, key);
    } else {
      assert key(s[0]) == Keys(s, key)[0];
      PairTotal(key(x), key(s[0]));
      assert Ascending(Keys(s[1..], key)) by {
        assert Keys(s[1..], key) == Keys(s, key)[1..];
      }
      InsertAscends(x, s[1..], key);
      InsertFirst(x, s[1..], key);
      if s[1..] != [] {
        assert PairLess(Keys(s, key)[0], Keys(s, key)[1]);
      }
      ConsAscends(s[0], Insert(x, s[1..], key), key);
    }
  }

  lemma InsertFirst<T>(x: T, s: seq<T>, key: T -> Pair)
    ensures Insert(x, s, key) != []
    ensures Insert(x, s, key)[0] == x || (s != [] && Insert(x, s, key)[0] == s[0])
  {
  }

  lemma ConsAscends<T>(x: T, s: seq<T>, key: T -> Pair)
    requires Ascending(Keys(s, key)) && (s != [] ==> PairLess(key(x), key(s[0])))
    ensures Ascending(Keys([x] + s, key))
  {
    var k := Keys([x] + s, key);
    forall i, j | 0 <= i < j < |k| ensures PairLess(k[i], k[j]) {
      if i == 0 {
        if j > 1 {
          assert PairLess(Keys(s, key)[0], Keys(s, key)[j - 1]);
          PairTrans(key(x), key(s[0]), key(s[j - 1]));
        }
      } else {
        assert PairLess(Keys(s, key)[i - 1], Keys(s, key)[j - 1]);
      }
    }
  }

  /** With distinct keys the sort is strictly ascending. */
  lemma {:induction false} SortAscends<T(!new)>(s: seq<T>, key: T -> Pair)
    requires Distinct(s, key)
    ensures Ascending(Keys(Sort(s, key), key))
  {
    if s != [] {
      var n := |s| - 1;
      SortAscends(s[..n], key);
      forall i | 0 <= i < |Sort(s[..n], key)| ensures key(Sort(s[..n], key)[i]) != key(s[n]) {
        SameElements(s[..n], key, Sort(s[..n], key)[i]);
      }
      InsertAscends(s[n], Sort(s[..n], key), key);
    }
  }
}
