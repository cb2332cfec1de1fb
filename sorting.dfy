/**
 * Descending orders by a two-part key, as Django's `order_by('-a', '-b')`,
 * Python's `sorted(..., reverse=True)` and JavaScript's `sort((a, b) => b - a)`
 * produce them.
 */
module Sorting {
  import opened Text

  /** A sort key: `major` decides, `minor` breaks ties. */
  datatype Key = Key(major: int, minor: int)

  /** `a` may come before `b` in a descending order. */
  predicate AtLeast(a: Key, b: Key)
  {
    a.major > b.major || (a.major == b.major && a.minor >= b.minor)
  }

  /** Every element's key is at least the key of every later element. */
  predicate SortedDesc<T>(s: seq<T>, key: T -> Key)
  {
    forall i, j :: 0 <= i < j < |s| ==> AtLeast(key(s[i]), key(s[j]))
  }

  /** `x` placed before the first element whose key is not greater than its own. */
  function Insert<T>(x: T, s: seq<T>, key: T -> Key): (r: seq<T>)
    ensures multiset(r) == multiset(s) + multiset{x}
    ensures |r| == |s| + 1
  {
    if s == [] || AtLeast(key(x), key(s[0])) then [x] + s
    else
      assert s == [s[0]] + s[1..];
      [s[0]] + Insert(x, s[1..], key)
  }

  /** The elements of `s` sorted by descending key. */
  function SortDesc<T>(s: seq<T>, key: T -> Key): (r: seq<T>)
    ensures multiset(r) == multiset(s)
    ensures |r| == |s|
  {
    if s == [] then []
    else
      assert s == [s[0]] + s[1..];
      Insert(s[0], SortDesc(s[1..], key), key)
  }

  /** Inserting into a sorted sequence keeps it sorted. */
  lemma {:induction false} InsertSorted<T>(x: T, s: seq<T>, key: T -> Key)
    requires SortedDesc(s, key)
    ensures SortedDesc(Insert(x, s, key), key)
    decreases |s|
  {
    if s == [] || AtLeast(key(x), key(s[0])) {
      var r := [x] + s;
      forall i, j | 0 <= i < j < |r| ensures AtLeast(key(r[i]), key(r[j])) {
        if i == 0 {
          assert r[j] == s[j - 1];
          if j > 1 {
            assert AtLeast(key(s[0]), key(s[j - 1]));
          }
        } else {
          assert r[i] == s[i - 1] && r[j] == s[j - 1];
        }
      }
    } else {
      var t := s[1..];
      assert SortedDesc(t, key) by {
        forall i, j | 0 <= i < j < |t| ensures AtLeast(key(t[i]), key(t[j])) {
          assert t[i] == s[i + 1] && t[j] == s[j + 1];
        }
      }
      InsertSorted(x, t, key);
      var u := Insert(x, t, key);
      var r := [s[0]] + u;
      forall i, j | 0 <= i < j < |r| ensures AtLeast(key(r[i]), key(r[j])) {
        if i == 0 {
          assert r[j] == u[j - 1];
          assert r[j] in multiset(u);
          assert r[j] in multiset(t) + multiset{x};
          if r[j] in multiset(t) {
            var k :| 0 <= k < |t| && t[k] == r[j];
            assert t[k] == s[k + 1];
          }
        } else {
          assert r[i] == u[i - 1] && r[j] == u[j - 1];
        }
      }
    }
  }

  /** `SortDesc` sorts. */
  lemma {:induction false} SortDescSorted<T>(s: seq<T>, key: T -> Key)
    ensures SortedDesc(SortDesc(s, key), key)
    decreases |s|
  {
    if s != [] {
      SortDescSorted(s[1..], key);
      InsertSorted(s[0], SortDesc(s[1..], key), key);
    }
  }

  /** A sorted sequence keeps its order in every prefix, such as a top-N cut. */
  lemma SortedPrefix<T>(s: seq<T>, n: nat, key: T -> Key)
    requires SortedDesc(s, key) && n <= |s|
    ensures SortedDesc(s[..n], key)
  {
  }

  /** `a` may come before `b` when sorting strings ascending (or, with `desc`, descending) by Python's `<`. */
  predicate StrBefore(desc: bool, a: string, b: string)
  {
    if desc then !StrLess(a, b) else !StrLess(b, a)
  }

  /** Every element's key may come before every later element's key. */
  predicate StrSorted<T>(s: seq<T>, key: T -> string, desc: bool)
  {
    forall i, j :: 0 <= i < j < |s| ==> StrBefore(desc, key(s[i]), key(s[j]))
  }

  /** `StrBefore` is a total preorder. */
  lemma StrBeforeFacts(desc: bool, a: string, b: string, c: string)
    ensures StrBefore(desc, a, b) || StrBefore(desc, b, a)
    ensures StrBefore(desc, a, b) && StrBefore(desc, b, c) ==> StrBefore(desc, a, c)
  {
    if StrLess(a, b) {
      StrLessAsymmetric(a, b);
    }
    if desc {
      if !StrLess(a, b) && !StrLess(b, c) {
        StrNotLessTransitive(c, b, a);
      }
    } else {
      if !StrLess(b, a) && !StrLess(c, b) {
        StrNotLessTransitive(a, b, c);
      }
    }
  }

  /** `x` placed before the first element it may come before. */
  function StrInsert<T>(x: T, s: seq<T>, key: T -> string, desc: bool): (r: seq<T>)
    ensures multiset(r) == multiset(s) + multiset{x}
    ensures |r| == |s| + 1
  {
    if s == [] || StrBefore(desc, key(x), key(s[0])) then [x] + s
    else
      assert s == [s[0]] + s[1..];
      [s[0]] + StrInsert(x, s[1..], key, desc)
  }

  /** Python's `sorted(s, key=key, reverse=desc)` on string keys, up to the order of equal keys. */
  function StrSort<T>(s: seq<T>, key: T -> string, desc: bool): (r: seq<T>)
    ensures multiset(r) == multiset(s)
    ensures |r| == |s|
  {
    if s == [] then []
    else
      assert s == [s[0]] + s[1..];
      StrInsert(s[0], StrSort(s[1..], key, desc), key, desc)
  }

  lemma {:induction false} StrInsertSorted<T>(x: T, s: seq<T>, key: T -> string, desc: bool)
    requires StrSorted(s, key, desc)
    ensures StrSorted(StrInsert(x, s, key, desc), key, desc)
    decreases |s|
  {
    if s == [] || StrBefore(desc, key(x), key(s[0])) {
      var r := [x] + s;
      forall i, j | 0 <= i < j < |r| ensures StrBefore(desc, key(r[i]), key(r[j])) {
        if i == 0 {
          assert r[j] == s[j - 1];
          if j > 1 {
            StrBeforeFacts(desc, key(x), key(s[0]), key(s[j - 1]));
          }
        } else {
          assert r[i] == s[i - 1] && r[j] == s[j - 1];
        }
      }
    } else {
      StrBeforeFacts(desc, key(x), key(s[0]), key(s[0]));
      var t := s[1..];
      assert StrSorted(t, key, desc) by {
        forall i, j | 0 <= i < j < |t| ensures StrBefore(desc, key(t[i]), key(t[j])) {
          assert t[i] == s[i + 1] && t[j] == s[j + 1];
        }
      }
      StrInsertSorted(x, t, key, desc);
      var u := StrInsert(x, t, key, desc);
      var r := [s[0]] + u;
      forall i, j | 0 <= i < j < |r| ensures StrBefore(desc, key(r[i]), key(r[j])) {
        if i == 0 {
          assert r[j] == u[j - 1];
          assert r[j] in multiset(u);
          assert r[j] in multiset(t) + multiset{x};
          if r[j] in multiset(t) {
            var k :| 0 <= k < |t| && t[k] == r[j];
            assert t[k] == s[k + 1];
          }
        } else {
          assert r[i] == u[i - 1] && r[j] == u[j - 1];
        }
      }
    }
  }

  /** `StrSort` sorts. */
  lemma {:induction false} StrSortSorted<T>(s: seq<T>, key: T -> string, desc: bool)
    ensures StrSorted(StrSort(s, key, desc), key, desc)
    decreases |s|
  {
    if s != [] {
      StrSortSorted(s[1..], key, desc);
      StrInsertSorted(s[0], StrSort(s[1..], key, desc), key, desc);
    }
  }
}
