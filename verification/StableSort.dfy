/** Python's sort by a key: ascending, and equal keys keep their order. */
module StableSort {
  datatype Keyed<T> = Keyed(key: int, item: T)

  ghost predicate Ascending<T>(s: seq<Keyed<T>>) {
    forall i, j :: 0 <= i < j < |s| ==> s[i].key <= s[j].key
  }

  /** The items with one key, in order. */
  function WithKey<T>(s: seq<Keyed<T>>, k: int): seq<Keyed<T>> {
    if s == [] then [] else (if s[0].key == k then [s[0]] else []) + WithKey(s[1..], k)
  }

  /** What a stable sort is: ascending keys, and for every key exactly the same items in the same order. */
  ghost predicate IsStableSortOf<T>(r: seq<Keyed<T>>, s: seq<Keyed<T>>) {
    Ascending(r) && forall k :: WithKey(r, k) == WithKey(s, k)
  }

  function Insert<T>(x: Keyed<T>, s: seq<Keyed<T>>): seq<Keyed<T>> {
    if s == [] || x.key <= s[0].key then [x] + s else [s[0]] + Insert(x, s[1..])
  }

  function Sort<T>(s: seq<Keyed<T>>): seq<Keyed<T>> {
    if s == [] then [] else Insert(s[0], Sort(s[1..]))
  }

  lemma {:induction false} InsertElements<T>(x: Keyed<T>, s: seq<Keyed<T>>)
    ensures multiset(Insert(x, s)) == multiset{x} + multiset(s)
  {
    if s != [] && x.key > s[0].key {
      InsertElements(x, s[1..]);
      assert s == [s[0]] + s[1..];
    }
  }

  lemma {:induction false} SortPermutes<T>(s: seq<Keyed<T>>)
    ensures multiset(Sort(s)) == multiset(s) && |Sort(s)| == |s|
  {
    if s != [] {
      SortPermutes(s[1..]);
      InsertElements(s[0], Sort(s[1..]));
      assert s == [s[0]] + s[1..];
    }
    assert |multiset(Sort(s))| == |multiset(s)|;
  }

  lemma {:induction false} InsertAscending<T>(x: Keyed<T>, s: seq<Keyed<T>>)
    requires Ascending(s)
    ensures Ascending(Insert(x, s))
  {
    if s != [] && x.key > s[0].key {
      InsertAscending(x, s[1..]);
      InsertElements(x, s[1..]);
      forall y | y in Insert(x, s[1..]) ensures s[0].key <= y.key {
        assert y in multiset(Insert(x, s[1..]));
      }
    }
  }

  lemma {:induction false} InsertWithKey<T>(x: Keyed<T>, s: seq<Keyed<T>>, k: int)
    requires Ascending(s)
    ensures WithKey(Insert(x, s), k) == WithKey([x] + s, k)
  {
    if s != [] && x.key > s[0].key {
      InsertWithKey(x, s[1..], k);
      assert ([s[0]] + Insert(x, s[1..]))[1..] == Insert(x, s[1..]);
      assert ([x] + s[1..])[1..] == s[1..];
    }
    assert ([x] + s)[1..] == s;
  }

  lemma {:induction false} SortIsStable<T>(s: seq<Keyed<T>>)
    ensures IsStableSortOf(Sort(s), s)
  {
    if s != [] {
      SortIsStable(s[1..]);
      InsertAscending(s[0], Sort(s[1..]));
      forall k ensures WithKey(Sort(s), k) == WithKey(s, k) {
        InsertWithKey(s[0], Sort(s[1..]), k);
        assert ([s[0]] + Sort(s[1..]))[1..] == Sort(s[1..]);
      }
    }
  }

  lemma {:induction false} WithKeyMembers<T>(s: seq<Keyed<T>>, k: int)
    ensures forall x :: x in WithKey(s, k) <==> x in s && x.key == k
  {
    if s != [] {
      WithKeyMembers(s[1..], k);
      assert s == [s[0]] + s[1..];
    }
  }

  /** The definition leaves no freedom: two stable sorts of one sequence are equal. */
  lemma {:induction false} StableSortUnique<T>(a: seq<Keyed<T>>, b: seq<Keyed<T>>)
    requires Ascending(a) && Ascending(b) && forall k :: WithKey(a, k) == WithKey(b, k)
    ensures a == b
  {
    if a == [] {
      if b != [] {
        SameHead(b, a);
      }
    } else {
      SameHead(a, b);
      forall k ensures WithKey(a[1..], k) == WithKey(b[1..], k) {
        assert WithKey(a, k) == WithKey(b, k);
        assert WithKey(a[1..], k) == (if a[0].key == k then WithKey(a, k)[1..] else WithKey(a, k));
      }
      StableSortUnique(a[1..], b[1..]);
      assert a == [a[0]] + a[1..] && b == [b[0]] + b[1..];
    }
  }

  lemma SameHead<T>(a: seq<Keyed<T>>, b: seq<Keyed<T>>)
    requires Ascending(a) && Ascending(b) && (forall k :: WithKey(a, k) == WithKey(b, k)) && a != []
    ensures b != [] && a[0] == b[0]
  {
    WithKeyMembers(a, a[0].key);
    WithKeyMembers(b, a[0].key);
    assert a[0] in WithKey(b, a[0].key);
    WithKeyMembers(a, b[0].key);
    WithKeyMembers(b, b[0].key);
    assert b[0] in WithKey(a, b[0].key);
    assert WithKey(a, a[0].key)[0] == a[0] && WithKey(b, b[0].key)[0] == b[0];
  }

  /** Sorting a sorted sequence changes nothing. */
  lemma {:induction false} SortSorted<T>(s: seq<Keyed<T>>)
    requires Ascending(s)
    ensures Sort(s) == s
  {
    SortIsStable(s);
    StableSortUnique(Sort(s), s);
  }

  /** A sort looks only at the keys: it commutes with any change of the items. */
  function MapItems<T, U>(s: seq<Keyed<T>>, f: T -> U): (r: seq<Keyed<U>>)
    ensures |r| == |s|
  {
    if s == [] then [] else [Keyed(s[0].key, f(s[0].item))] + MapItems(s[1..], f)
  }

  lemma {:induction false} InsertMapped<T, U>(x: Keyed<T>, s: seq<Keyed<T>>, f: T -> U)
    ensures MapItems(Insert(x, s), f) == Insert(Keyed(x.key, f(x.item)), MapItems(s, f))
  {
    if s != [] && x.key > s[0].key {
      InsertMapped(x, s[1..], f);
      assert ([s[0]] + Insert(x, s[1..]))[1..] == Insert(x, s[1..]);
    } else {
      assert ([x] + s)[1..] == s;
    }
  }

  lemma {:induction false} SortMapped<T, U>(s: seq<Keyed<T>>, f: T -> U)
    ensures Sort(MapItems(s, f)) == MapItems(Sort(s), f)
  {
    if s != [] {
      SortMapped(s[1..], f);
      InsertMapped(s[0], Sort(s[1..]), f);
    }
  }
}
