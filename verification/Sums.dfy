/** Finite sums over bags, with no order of summation. A database table is a bag of rows and a
    Go map is ranged over in an unspecified order, so every total of the model is one of these. */
module Sums {

  ghost function Sum<T>(m: multiset<T>, f: T -> real): real
    decreases |m|
  {
    if m == multiset{} then 0.0
    else
      var x :| x in m;
      f(x) + Sum(m - multiset{x}, f)
  }

  /** Any element may be taken out first. */
  lemma {:induction false} SumPick<T>(m: multiset<T>, f: T -> real, x: T)
    requires x in m
    ensures Sum(m, f) == f(x) + Sum(m - multiset{x}, f)
    decreases |m|
  {
    var y :| y in m && Sum(m, f) == f(y) + Sum(m - multiset{y}, f);
    if x != y {
      SumPick(m - multiset{y}, f, x);
      SumPick(m - multiset{x}, f, y);
      MinusSwap(m, x, y);
    }
  }

  lemma SumAdd<T>(m: multiset<T>, x: T, f: T -> real)
    ensures Sum(m + multiset{x}, f) == Sum(m, f) + f(x)
  {
    SumPick(m + multiset{x}, f, x);
    assert m + multiset{x} - multiset{x} == m;
  }

  lemma SumSingle<T>(x: T, f: T -> real)
    ensures Sum(multiset{x}, f) == f(x)
  {
    SumAdd(multiset{}, x, f);
    assert multiset{} + multiset{x} == multiset{x};
  }

  lemma {:induction false} SumUnion<T>(a: multiset<T>, b: multiset<T>, f: T -> real)
    ensures Sum(a + b, f) == Sum(a, f) + Sum(b, f)
    decreases |b|
  {
    if b == multiset{} {
      assert a + b == a;
    } else {
      var x :| x in b;
      var b' := b - multiset{x};
      assert a + b == (a + b') + multiset{x};
      SumAdd(a + b', x, f);
      SumUnion(a, b', f);
      SumPick(b, f, x);
    }
  }

  lemma {:induction false} SumSame<T>(m: multiset<T>, f: T -> real, g: T -> real)
    requires forall x :: x in m ==> f(x) == g(x)
    ensures Sum(m, f) == Sum(m, g)
    decreases |m|
  {
    if m != multiset{} {
      var x :| x in m;
      SumPick(m, f, x);
      SumPick(m, g, x);
      SumSame(m - multiset{x}, f, g);
    }
  }

  lemma {:induction false} SumZero<T>(m: multiset<T>, f: T -> real)
    requires forall x :: x in m ==> f(x) == 0.0
    ensures Sum(m, f) == 0.0
    decreases |m|
  {
    if m != multiset{} {
      var x :| x in m;
      SumPick(m, f, x);
      SumZero(m - multiset{x}, f);
    }
  }

  lemma {:induction false} SumPlus<T>(m: multiset<T>, f: T -> real, g: T -> real, h: T -> real)
    requires forall x :: x in m ==> h(x) == f(x) + g(x)
    ensures Sum(m, h) == Sum(m, f) + Sum(m, g)
    decreases |m|
  {
    if m != multiset{} {
      var x :| x in m;
      SumPick(m, f, x);
      SumPick(m, g, x);
      SumPick(m, h, x);
      SumPlus(m - multiset{x}, f, g, h);
    }
  }

  lemma {:induction false} SumMinus<T>(m: multiset<T>, f: T -> real, g: T -> real, h: T -> real)
    requires forall x :: x in m ==> h(x) == f(x) - g(x)
    ensures Sum(m, h) == Sum(m, f) - Sum(m, g)
  {
    SumPlus(m, h, g, f);
  }

  lemma {:induction false} SumNonneg<T>(m: multiset<T>, f: T -> real)
    requires forall x :: x in m ==> f(x) >= 0.0
    ensures Sum(m, f) >= 0.0
    ensures forall x :: x in m ==> f(x) <= Sum(m, f)
    decreases |m|
  {
    if m != multiset{} {
      forall x | x in m
        ensures f(x) <= Sum(m, f) && Sum(m, f) >= 0.0
      {
        SumPick(m, f, x);
        SumNonneg(m - multiset{x}, f);
      }
      var y :| y in m;
      assert f(y) <= Sum(m, f);
    }
  }

  /** The sum over a set of keys, when only one key carries a value. */
  lemma SumPoint<K>(keys: set<K>, k: K, f: K -> real)
    requires forall x :: x in keys && x != k ==> f(x) == 0.0
    ensures Sum(multiset(keys), f) == if k in keys then f(k) else 0.0
  {
    if k in keys {
      SumPick(multiset(keys), f, k);
      SumZero(multiset(keys) - multiset{k}, f);
    } else {
      SumZero(multiset(keys), f);
    }
  }

  /** f counted only on the elements that a grouping sends to k. */
  ghost function Group<T, K>(f: T -> real, part: T -> K, k: K): T -> real {
    (x: T) => if part(x) == k then f(x) else 0.0
  }

  /** The total of each group. */
  ghost function GroupTotal<T, K>(m: multiset<T>, f: T -> real, part: T -> K): K -> real {
    (k: K) => Sum(m, Group(f, part, k))
  }

  /** A grand total is the total of the group totals, as long as no group that carries a value
      is left out. */
  lemma {:induction false} SumByGroup<T, K>(m: multiset<T>, f: T -> real, part: T -> K, keys: set<K>)
    requires forall x :: x in m ==> part(x) in keys || f(x) == 0.0
    ensures Sum(m, f) == Sum(multiset(keys), GroupTotal(m, f, part))
    decreases |m|
  {
    if m == multiset{} {
      SumZero(multiset(keys), GroupTotal(m, f, part));
    } else {
      var x :| x in m;
      var m' := m - multiset{x};
      SumPick(m, f, x);
      SumByGroup(m', f, part, keys);
      var only := (k: K) => if part(x) == k then f(x) else 0.0;
      forall k | k in keys
        ensures GroupTotal(m, f, part)(k) == GroupTotal(m', f, part)(k) + only(k)
      {
        SumPick(m, Group(f, part, k), x);
      }
      SumPlus(multiset(keys), GroupTotal(m', f, part), only, GroupTotal(m, f, part));
      SumPoint(keys, part(x), only);
    }
  }

  /** The bag union of g(k) over a set of keys: a loop over a map that appends to a list. */
  ghost function Bag<K, V>(keys: set<K>, g: K -> multiset<V>): multiset<V>
    decreases |keys|
  {
    if keys == {} then multiset{}
    else
      var k :| k in keys;
      g(k) + Bag(keys - {k}, g)
  }

  lemma {:induction false} BagPick<K, V>(keys: set<K>, g: K -> multiset<V>, k: K)
    requires k in keys
    ensures Bag(keys, g) == g(k) + Bag(keys - {k}, g)
    decreases |keys|
  {
    var j :| j in keys && Bag(keys, g) == g(j) + Bag(keys - {j}, g);
    if j != k {
      BagPick(keys - {j}, g, k);
      BagPick(keys - {k}, g, j);
      var rest := keys - {j, k};
      assert keys - {j} - {k} == rest && keys - {k} - {j} == rest;
      UnionSwap(g(j), g(k), Bag(rest, g));
    }
  }

  lemma BagAdd<K, V>(keys: set<K>, g: K -> multiset<V>, k: K)
    requires k !in keys
    ensures Bag(keys + {k}, g) == Bag(keys, g) + g(k)
  {
    BagPick(keys + {k}, g, k);
    assert keys + {k} - {k} == keys;
  }

  lemma {:induction false} BagMember<K, V>(keys: set<K>, g: K -> multiset<V>, v: V)
    ensures v in Bag(keys, g) <==> exists k :: k in keys && v in g(k)
    decreases |keys|
  {
    if keys != {} {
      var k :| k in keys && Bag(keys, g) == g(k) + Bag(keys - {k}, g);
      BagMember(keys - {k}, g, v);
      forall j | j in keys && v in g(j)
        ensures v in Bag(keys, g)
      {
        assert j == k || j in keys - {k};
      }
    }
  }

  lemma {:induction false} BagSame<K, V>(keys: set<K>, g: K -> multiset<V>, h: K -> multiset<V>)
    requires forall k :: k in keys ==> g(k) == h(k)
    ensures Bag(keys, g) == Bag(keys, h)
    decreases |keys|
  {
    if keys != {} {
      var k :| k in keys;
      BagPick(keys, g, k);
      BagPick(keys, h, k);
      BagSame(keys - {k}, g, h);
    }
  }

  /** The bag of a union of bags, key by key. */
  lemma {:induction false} BagUnion<K, V>(keys: set<K>, g: K -> multiset<V>, h: K -> multiset<V>, u: K -> multiset<V>)
    requires forall k :: k in keys ==> u(k) == g(k) + h(k)
    ensures Bag(keys, u) == Bag(keys, g) + Bag(keys, h)
    decreases |keys|
  {
    if keys != {} {
      var k :| k in keys;
      BagPick(keys, g, k);
      BagPick(keys, h, k);
      BagPick(keys, u, k);
      BagUnion(keys - {k}, g, h, u);
    }
  }

  lemma SumPickKey<K>(keys: set<K>, h: K -> real, k: K)
    requires k in keys
    ensures Sum(multiset(keys), h) == h(k) + Sum(multiset(keys - {k}), h)
  {
    SumPick(multiset(keys), h, k);
    assert multiset(keys) - multiset{k} == multiset(keys - {k});
  }

  /** A step of a loop that takes the elements of a bag one at a time. */
  lemma TakeOne<T>(all: multiset<T>, todo: multiset<T>, x: T)
    requires x in todo && todo <= all
    ensures all - (todo - multiset{x}) == (all - todo) + multiset{x}
  {
  }

  lemma {:induction false} SumBag<K, V>(keys: set<K>, g: K -> multiset<V>, f: V -> real, h: K -> real)
    requires forall k :: k in keys ==> Sum(g(k), f) == h(k)
    ensures Sum(Bag(keys, g), f) == Sum(multiset(keys), h)
    decreases |keys|
  {
    if keys != {} {
      var k :| k in keys;
      BagPick(keys, g, k);
      SumUnion(g(k), Bag(keys - {k}, g), f);
      SumBag(keys - {k}, g, f, h);
      SumPickKey(keys, h, k);
    }
  }

  lemma UnionSwap<V>(a: multiset<V>, b: multiset<V>, c: multiset<V>)
    ensures a + (b + c) == b + (a + c)
  {
  }

  lemma UnionAssoc<V>(a: multiset<V>, b: multiset<V>, c: multiset<V>)
    ensures (a + b) + c == a + (b + c)
  {
  }

  lemma UnionPairs<V>(a: multiset<V>, b: multiset<V>, c: multiset<V>, d: multiset<V>)
    ensures (a + b) + (c + d) == (a + c) + (b + d)
  {
  }

  /** The bag of g(x) for x in m. */
  ghost function Image<T, U>(m: multiset<T>, g: T -> U): multiset<U>
    decreases |m|
  {
    if m == multiset{} then multiset{}
    else
      var x :| x in m;
      multiset{g(x)} + Image(m - multiset{x}, g)
  }

  lemma {:induction false} ImagePick<T, U>(m: multiset<T>, g: T -> U, x: T)
    requires x in m
    ensures Image(m, g) == multiset{g(x)} + Image(m - multiset{x}, g)
    decreases |m|
  {
    var y :| y in m && Image(m, g) == multiset{g(y)} + Image(m - multiset{y}, g);
    if x != y {
      MinusSwap(m, x, y);
      ImagePick(m - multiset{y}, g, x);
      ImagePick(m - multiset{x}, g, y);
      UnionSwap(multiset{g(x)}, multiset{g(y)}, Image(m - multiset{y} - multiset{x}, g));
    }
  }

  lemma MinusSwap<T>(m: multiset<T>, x: T, y: T)
    ensures m - multiset{y} - multiset{x} == m - multiset{x} - multiset{y}
  {
  }

  lemma ImageAdd<T, U>(m: multiset<T>, x: T, g: T -> U)
    ensures Image(m + multiset{x}, g) == Image(m, g) + multiset{g(x)}
  {
    ImagePick(m + multiset{x}, g, x);
    assert m + multiset{x} - multiset{x} == m;
  }

  lemma {:induction false} ImageUnion<T, U>(a: multiset<T>, b: multiset<T>, g: T -> U)
    ensures Image(a + b, g) == Image(a, g) + Image(b, g)
    decreases |b|
  {
    if b == multiset{} {
      assert a + b == a;
    } else {
      var x :| x in b;
      var b' := b - multiset{x};
      assert a + b == (a + b') + multiset{x};
      ImageAdd(a + b', x, g);
      ImageUnion(a, b', g);
      ImagePick(b, g, x);
    }
  }

  lemma ImageSingle<T, U>(x: T, g: T -> U)
    ensures Image(multiset{x}, g) == multiset{g(x)}
  {
    ImagePick(multiset{x}, g, x);
    assert multiset{x} - multiset{x} == multiset{};
  }

  lemma {:induction false} ImageBag<K, T, U>(keys: set<K>, b: K -> multiset<T>, g: T -> U, h: K -> multiset<U>)
    requires forall k :: k in keys ==> h(k) == Image(b(k), g)
    ensures Image(Bag(keys, b), g) == Bag(keys, h)
    decreases |keys|
  {
    if keys != {} {
      var k :| k in keys;
      BagPick(keys, b, k);
      BagPick(keys, h, k);
      ImageUnion(b(k), Bag(keys - {k}, b), g);
      ImageBag(keys - {k}, b, g, h);
    }
  }

  lemma {:induction false} ImageMember<T, U>(m: multiset<T>, g: T -> U, u: U)
    ensures u in Image(m, g) <==> exists x :: x in m && g(x) == u
    decreases |m|
  {
    if m != multiset{} {
      var x :| x in m && Image(m, g) == multiset{g(x)} + Image(m - multiset{x}, g);
      ImageMember(m - multiset{x}, g, u);
      forall y | y in m && g(y) == u
        ensures u in Image(m, g)
      {
        assert y == x || y in m - multiset{x};
      }
    }
  }

  lemma {:induction false} SumImage<T, U>(m: multiset<T>, g: T -> U, f: U -> real, h: T -> real)
    requires forall x :: x in m ==> h(x) == f(g(x))
    ensures Sum(Image(m, g), f) == Sum(m, h)
    decreases |m|
  {
    if m != multiset{} {
      var x :| x in m;
      ImagePick(m, g, x);
      SumAdd(Image(m - multiset{x}, g), g(x), f);
      assert multiset{g(x)} + Image(m - multiset{x}, g) == Image(m - multiset{x}, g) + multiset{g(x)};
      SumPick(m, h, x);
      SumImage(m - multiset{x}, g, f, h);
    }
  }

  /** The elements of m that satisfy p: a `where` clause. */
  ghost function Filter<T>(m: multiset<T>, p: T -> bool): multiset<T>
    decreases |m|
  {
    if m == multiset{} then multiset{}
    else
      var x :| x in m;
      (if p(x) then multiset{x} else multiset{}) + Filter(m - multiset{x}, p)
  }

  lemma {:induction false} FilterAt<T>(m: multiset<T>, p: T -> bool, y: T)
    ensures Filter(m, p)[y] == if p(y) then m[y] else 0
    decreases |m|
  {
    if m != multiset{} {
      var x :| x in m && Filter(m, p) == (if p(x) then multiset{x} else multiset{}) + Filter(m - multiset{x}, p);
      FilterAt(m - multiset{x}, p, y);
    }
  }

  lemma {:induction false} SumFilter<T>(m: multiset<T>, p: T -> bool, f: T -> real, g: T -> real)
    requires forall x :: x in m ==> g(x) == if p(x) then f(x) else 0.0
    ensures Sum(Filter(m, p), f) == Sum(m, g)
    decreases |m|
  {
    if m != multiset{} {
      var x :| x in m && Filter(m, p) == (if p(x) then multiset{x} else multiset{}) + Filter(m - multiset{x}, p);
      SumFilter(m - multiset{x}, p, f, g);
      SumPick(m, g, x);
      SumSingle(x, f);
      SumUnion(if p(x) then multiset{x} else multiset{}, Filter(m - multiset{x}, p), f);
    }
  }

  /** One more element of a sequence, as a loop over it sees them. */
  lemma PrefixBag<T>(s: seq<T>, i: nat)
    requires i < |s|
    ensures multiset(s[..i + 1]) == multiset(s[..i]) + multiset{s[i]}
  {
    assert s[..i + 1] == s[..i] + [s[i]];
  }

  /** The bag of a list mapped element by element. */
  lemma {:induction false} ImageOfSeq<T, U>(s: seq<T>, t: seq<U>, g: T -> U)
    requires |t| == |s| && forall i :: 0 <= i < |s| ==> t[i] == g(s[i])
    ensures multiset(t) == Image(multiset(s), g)
    decreases |s|
  {
    if s != [] {
      var n := |s| - 1;
      ImageOfSeq(s[..n], t[..n], g);
      PrefixBag(s, n);
      PrefixBag(t, n);
      ImageAdd(multiset(s[..n]), s[n], g);
      assert s[..n + 1] == s && t[..n + 1] == t;
    }
  }
}
