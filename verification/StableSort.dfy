/** Stable sorting by a key, with what a stable sort keeps and what it forgets. */
module StableSort {

  type Key = seq<string>

  /** `str::cmp` is at most Equal. */
  predicate Leq(a: string, b: string) {
    a == [] || (b != [] && (a[0] < b[0] || (a[0] == b[0] && Leq(a[1..], b[1..]))))
  }

  /** Tuple comparison: the first differing component decides. */
  predicate KeyLeq(a: Key, b: Key) {
    a == [] || (b != [] && if a[0] == b[0] then KeyLeq(a[1..], b[1..]) else Leq(a[0], b[0]))
  }

  lemma {:induction false} LeqOrder(a: string, b: string, c: string)
    ensures Leq(a, b) || Leq(b, a)
    ensures Leq(a, b) && Leq(b, a) ==> a == b
    ensures Leq(a, b) && Leq(b, c) ==> Leq(a, c)
  {
    if a != [] && b != [] {
      LeqOrder(a[1..], b[1..], if c == [] then [] else c[1..]);
      if a[0] == b[0] && a[1..] == b[1..] { assert a == [a[0]] + a[1..] == b; }
    }
  }

  lemma {:induction false} KeyLeqOrder(a: Key, b: Key, c: Key)
    ensures KeyLeq(a, b) || KeyLeq(b, a)
    ensures KeyLeq(a, b) && KeyLeq(b, a) ==> a == b
    ensures KeyLeq(a, b) && KeyLeq(b, c) ==> KeyLeq(a, c)
  {
    if a != [] && b != [] {
      KeyLeqOrder(a[1..], b[1..], if c == [] then [] else c[1..]);
      LeqOrder(a[0], b[0], if c == [] then [] else c[0]);
      if c != [] { LeqOrder(b[0], c[0], a[0]); LeqOrder(a[0], c[0], b[0]); }
      if a[0] == b[0] && a[1..] == b[1..] { assert a == [a[0]] + a[1..] == b; }
    }
  }

  /** `x` came before every element of `ys`, so it stays before its equals. */
  function Insert<T>(x: T, ys: seq<T>, key: T -> Key): seq<T> {
    if ys == [] || KeyLeq(key(x), key(ys[0])) then [x] + ys
    else [ys[0]] + Insert(x, ys[1..], key)
  }

  /** The result every stable sort has. */
  function Sort<T>(xs: seq<T>, key: T -> Key): seq<T> {
    if xs == [] then [] else Insert(xs[0], Sort(xs[1..], key), key)
  }

  lemma SortOne<T>(x: T, key: T -> Key)
    ensures Sort([x], key) == [x]
  {
    assert Sort([], key) == [];
  }

  ghost predicate Sorted<T>(xs: seq<T>, key: T -> Key) {
    forall i, j :: 0 <= i < j < |xs| ==> KeyLeq(key(xs[i]), key(xs[j]))
  }

  /** The elements with key `k`, in order. */
  function WithKey<T>(xs: seq<T>, key: T -> Key, k: Key): seq<T> {
    if xs == [] then []
    else (if key(xs[0]) == k then [xs[0]] else []) + WithKey(xs[1..], key, k)
  }

  /** Each key has the same elements in the same order. */
  ghost predicate Agree<T>(xs: seq<T>, ys: seq<T>, key: T -> Key) {
    forall k :: WithKey(xs, key, k) == WithKey(ys, key, k)
  }

  lemma {:induction false} InsertKeepsOrder<T>(x: T, ys: seq<T>, key: T -> Key)
    requires Sorted(ys, key)
    ensures Sorted(Insert(x, ys, key), key)
    ensures multiset(Insert(x, ys, key)) == multiset{x} + multiset(ys)
  {
    if ys == [] {
    } else if KeyLeq(key(x), key(ys[0])) {
      forall j | 0 <= j < |ys| ensures KeyLeq(key(x), key(ys[j])) {
        KeyLeqOrder(key(x), key(ys[0]), key(ys[j]));
      }
    } else {
      InsertKeepsOrder(x, ys[1..], key);
      KeyLeqOrder(key(x), key(ys[0]), []);
      var rest := Insert(x, ys[1..], key);
      assert ys == [ys[0]] + ys[1..];
      forall j | 0 <= j < |rest| ensures KeyLeq(key(ys[0]), key(rest[j])) {
        assert rest[j] in multiset(rest);
        if rest[j] != x { assert rest[j] in ys[1..]; }
      }
    }
  }

  lemma {:induction false} InsertIsStable<T>(x: T, ys: seq<T>, key: T -> Key, k: Key)
    ensures WithKey(Insert(x, ys, key), key, k) == (if key(x) == k then [x] else []) + WithKey(ys, key, k)
  {
    hide KeyLeq;
    var r := Insert(x, ys, key);
    if ys == [] || KeyLeq(key(x), key(ys[0])) {
      assert r[1..] == ys;
    } else {
      assert key(x) != key(ys[0]) by { KeyLeqRefl(key(x)); }
      InsertIsStable(x, ys[1..], key, k);
      assert r[0] == ys[0] && r[1..] == Insert(x, ys[1..], key);
    }
  }

  lemma KeyLeqRefl(a: Key)
    ensures KeyLeq(a, a)
  {
    KeyLeqOrder(a, a, a);
  }

  /** Sorting orders by key, loses nothing, and keeps the order within each key. */
  lemma {:induction false} SortIsStable<T>(xs: seq<T>, key: T -> Key)
    ensures Sorted(Sort(xs, key), key)
    ensures multiset(Sort(xs, key)) == multiset(xs)
    ensures forall k :: WithKey(Sort(xs, key), key, k) == WithKey(xs, key, k)
  {
    if xs != [] {
      SortIsStable(xs[1..], key);
      InsertKeepsOrder(xs[0], Sort(xs[1..], key), key);
      assert xs == [xs[0]] + xs[1..];
      forall k ensures WithKey(Sort(xs, key), key, k) == WithKey(xs, key, k) {
        InsertIsStable(xs[0], Sort(xs[1..], key), key, k);
      }
    }
  }

  lemma {:induction false} WithKeyMember<T>(xs: seq<T>, key: T -> Key, k: Key, x: T)
    ensures x in WithKey(xs, key, k) <==> x in xs && key(x) == k
  {
    if xs != [] {
      WithKeyMember(xs[1..], key, k, x);
      assert xs == [xs[0]] + xs[1..];
    }
  }

  /** A sorted list is determined by its per-key lists. */
  lemma {:induction false} SortedDetermined<T>(xs: seq<T>, ys: seq<T>, key: T -> Key)
    requires Sorted(xs, key) && Sorted(ys, key)
    requires Agree(xs, ys, key)
    ensures xs == ys
  {
    if xs == [] || ys == [] {
      var zs := xs + ys;
      assert zs != [] ==> WithKey(xs, key, key(zs[0])) == WithKey(ys, key, key(zs[0]));
    } else {
      HeadsAgree(xs, ys, key);
      HeadsAgree(ys, xs, key);
      KeyLeqOrder(key(xs[0]), key(ys[0]), []);
      var k0 := key(xs[0]);
      assert WithKey(xs, key, k0)[0] == xs[0] && WithKey(ys, key, k0)[0] == ys[0];
      forall k ensures WithKey(xs[1..], key, k) == WithKey(ys[1..], key, k) {
        if k == k0 {
          assert WithKey(xs, key, k)[1..] == WithKey(xs[1..], key, k);
          assert WithKey(ys, key, k)[1..] == WithKey(ys[1..], key, k);
        } else {
          assert WithKey(xs, key, k) == WithKey(xs[1..], key, k);
          assert WithKey(ys, key, k) == WithKey(ys[1..], key, k);
        }
      }
      SortedDetermined(xs[1..], ys[1..], key);
      assert xs == [xs[0]] + xs[1..] && ys == [ys[0]] + ys[1..];
    }
  }

  lemma HeadsAgree<T>(xs: seq<T>, ys: seq<T>, key: T -> Key)
    requires xs != [] && ys != [] && Sorted(ys, key)
    requires Agree(xs, ys, key)
    ensures KeyLeq(key(ys[0]), key(xs[0]))
  {
    var k := key(xs[0]);
    WithKeyMember(xs, key, k, xs[0]);
    WithKeyMember(ys, key, k, xs[0]);
    var j :| 0 <= j < |ys| && ys[j] == xs[0];
    KeyLeqRefl(k);
  }

  /** Two lists sort to the same list exactly when they agree on every key. */
  lemma SortEqualIff<T>(xs: seq<T>, ys: seq<T>, key: T -> Key)
    ensures Sort(xs, key) == Sort(ys, key) <==> Agree(xs, ys, key)
  {
    SortIsStable(xs, key);
    SortIsStable(ys, key);
    assert Agree(Sort(xs, key), xs, key) && Agree(Sort(ys, key), ys, key);
    if Agree(xs, ys, key) {
      SortedDetermined(Sort(xs, key), Sort(ys, key), key);
    }
    if Sort(xs, key) == Sort(ys, key) {
      forall k ensures WithKey(xs, key, k) == WithKey(ys, key, k) {
        assert WithKey(Sort(xs, key), key, k) == WithKey(xs, key, k);
        assert WithKey(Sort(ys, key), key, k) == WithKey(ys, key, k);
      }
    }
  }

  ghost predicate DistinctKeys<T>(xs: seq<T>, key: T -> Key) {
    forall i, j :: 0 <= i < j < |xs| ==> key(xs[i]) != key(xs[j])
  }

  lemma {:induction false} DistinctHasOne<T>(xs: seq<T>, key: T -> Key, k: Key)
    requires DistinctKeys(xs, key)
    ensures |WithKey(xs, key, k)| <= 1
  {
    if xs != [] {
      DistinctHasOne(xs[1..], key, k);
      if key(xs[0]) == k && WithKey(xs[1..], key, k) != [] {
        var x := WithKey(xs[1..], key, k)[0];
        WithKeyMember(xs[1..], key, k, x);
      }
    }
  }

  lemma {:induction false} WithKeyCounts<T>(xs: seq<T>, key: T -> Key, x: T)
    ensures multiset(WithKey(xs, key, key(x)))[x] == multiset(xs)[x]
  {
    if xs != [] {
      WithKeyCounts(xs[1..], key, x);
      assert xs == [xs[0]] + xs[1..];
    }
  }

  lemma SameWithKey<T>(xs: seq<T>, ys: seq<T>, key: T -> Key, k: Key, x: T)
    requires multiset(xs) == multiset(ys)
    ensures x in WithKey(xs, key, k) <==> x in WithKey(ys, key, k)
  {
    WithKeyMember(xs, key, k, x);
    WithKeyMember(ys, key, k, x);
    assert x in xs <==> x in multiset(xs);
    assert x in ys <==> x in multiset(ys);
  }

  /** With distinct keys, agreeing on every key is being a reordering. */
  lemma AgreeIffReordering<T>(xs: seq<T>, ys: seq<T>, key: T -> Key)
    requires DistinctKeys(xs, key) && DistinctKeys(ys, key)
    ensures Agree(xs, ys, key) <==> multiset(xs) == multiset(ys)
  {
    if multiset(xs) == multiset(ys) {
      forall k ensures WithKey(xs, key, k) == WithKey(ys, key, k) {
        DistinctHasOne(xs, key, k);
        DistinctHasOne(ys, key, k);
        var a, b := WithKey(xs, key, k), WithKey(ys, key, k);
        if a != [] { SameWithKey(xs, ys, key, k, a[0]); }
        if b != [] { SameWithKey(xs, ys, key, k, b[0]); }
      }
    }
    if Agree(xs, ys, key) {
      forall x ensures multiset(xs)[x] == multiset(ys)[x] {
        WithKeyCounts(xs, key, x);
        WithKeyCounts(ys, key, x);
        assert WithKey(xs, key, key(x)) == WithKey(ys, key, key(x));
      }
      assert multiset(xs) == multiset(ys);
    }
  }

  function Map<T, U>(xs: seq<T>, f: T -> U): (r: seq<U>)
    ensures |r| == |xs| && forall i :: 0 <= i < |xs| ==> r[i] == f(xs[i])
  {
    seq(|xs|, i requires 0 <= i < |xs| => f(xs[i]))
  }

  /** Sorting commutes with a projection that keeps the key. */
  lemma {:induction false} SortCommutes<T(!new), U>(xs: seq<T>, f: T -> U, key: T -> Key, key': U -> Key)
    requires forall x :: key'(f(x)) == key(x)
    ensures Map(Sort(xs, key), f) == Sort(Map(xs, f), key')
  {
    if xs != [] {
      SortCommutes(xs[1..], f, key, key');
      assert Map(xs, f)[1..] == Map(xs[1..], f);
      InsertCommutes(xs[0], Sort(xs[1..], key), f, key, key');
    }
  }

  lemma {:induction false} InsertCommutes<T(!new), U>(x: T, ys: seq<T>, f: T -> U, key: T -> Key, key': U -> Key)
    requires forall x :: key'(f(x)) == key(x)
    ensures Map(Insert(x, ys, key), f) == Insert(f(x), Map(ys, f), key')
  {
    if ys != [] && !KeyLeq(key(x), key(ys[0])) {
      InsertCommutes(x, ys[1..], f, key, key');
      assert Map(ys, f)[1..] == Map(ys[1..], f);
    }
  }
}
