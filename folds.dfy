/** Sums, counts and filters over sequences, written from the back so that a
    loop that walks a sequence front to back keeps `acc == Sum(s[..i], f)`. */
module Folds {
  import opened Wrappers

  function Sum<T>(s: seq<T>, f: T -> real): real
  {
    if |s| == 0 then 0.0 else Sum(s[..|s| - 1], f) + f(s[|s| - 1])
  }

  /** One step of a left-to-right accumulation loop. */
  lemma SumStep<T>(s: seq<T>, i: nat, f: T -> real)
    requires i < |s|
    ensures Sum(s[..i + 1], f) == Sum(s[..i], f) + f(s[i])
  {
    assert s[..i + 1][..i] == s[..i];
  }

  lemma {:induction false} SumAppend<T>(a: seq<T>, b: seq<T>, f: T -> real)
    ensures Sum(a + b, f) == Sum(a, f) + Sum(b, f)
    decreases |b|
  {
    if |b| > 0 {
      assert (a + b)[..|a + b| - 1] == a + b[..|b| - 1];
      SumAppend(a, b[..|b| - 1], f);
    } else {
      assert a + b == a;
    }
  }

  lemma SumCons<T>(x: T, s: seq<T>, f: T -> real)
    ensures Sum([x] + s, f) == f(x) + Sum(s, f)
  {
    SumAppend([x], s, f);
    assert [x][..0] == [];
  }

  lemma {:induction false} SumPointwise<T>(s: seq<T>, f: T -> real, g: T -> real)
    requires forall i :: 0 <= i < |s| ==> f(s[i]) == g(s[i])
    ensures Sum(s, f) == Sum(s, g)
    decreases |s|
  {
    if |s| > 0 { SumPointwise(s[..|s| - 1], f, g); }
  }

  /** Two sums over sequences of the same length agree when their terms agree position by position. */
  lemma {:induction false} SumAligned<A, B>(s: seq<A>, t: seq<B>, f: A -> real, g: B -> real)
    requires |s| == |t|
    requires forall i :: 0 <= i < |s| ==> f(s[i]) == g(t[i])
    ensures Sum(s, f) == Sum(t, g)
    decreases |s|
  {
    if |s| > 0 {
      var n := |s| - 1;
      assert forall i :: 0 <= i < n ==> s[..n][i] == s[i] && t[..n][i] == t[i];
      SumAligned(s[..n], t[..n], f, g);
    }
  }

  lemma {:induction false} SumLinear<T>(s: seq<T>, f: T -> real, g: T -> real, h: T -> real)
    requires forall i :: 0 <= i < |s| ==> h(s[i]) == f(s[i]) + g(s[i])
    ensures Sum(s, h) == Sum(s, f) + Sum(s, g)
    decreases |s|
  {
    if |s| > 0 { SumLinear(s[..|s| - 1], f, g, h); }
  }

  lemma {:induction false} SumNonneg<T>(s: seq<T>, f: T -> real)
    requires forall i :: 0 <= i < |s| ==> f(s[i]) >= 0.0
    ensures Sum(s, f) >= 0.0
    decreases |s|
  {
    if |s| > 0 { SumNonneg(s[..|s| - 1], f); }
  }

  lemma {:induction false} SumZero<T>(s: seq<T>, f: T -> real)
    requires forall i :: 0 <= i < |s| ==> f(s[i]) == 0.0
    ensures Sum(s, f) == 0.0
    decreases |s|
  {
    if |s| > 0 { SumZero(s[..|s| - 1], f); }
  }

  /** Adding up, over distinct keys, a value that only one key receives gives that value when the
      key is among them and 0 otherwise. */
  lemma {:induction false} SumIndicator<K>(keys: seq<K>, k0: K, v: real)
    requires forall i, j :: 0 <= i < j < |keys| ==> keys[i] != keys[j]
    ensures Sum(keys, k => if k == k0 then v else 0.0) == if k0 in keys then v else 0.0
    decreases |keys|
  {
    if |keys| > 0 {
      var init := keys[..|keys| - 1];
      SumIndicator(init, k0, v);
      assert keys == init + [keys[|keys| - 1]];
      if keys[|keys| - 1] == k0 {
        assert k0 !in init;
      }
    }
  }

  /** Two sums over two sequences can be taken in either order. */
  lemma {:induction false} SumSwap<A, B>(xs: seq<A>, ys: seq<B>, f: (A, B) -> real)
    ensures Sum(xs, a => Sum(ys, b => f(a, b))) == Sum(ys, b => Sum(xs, a => f(a, b)))
    decreases |xs|
  {
    if |xs| > 0 {
      var init, x := xs[..|xs| - 1], xs[|xs| - 1];
      SumSwap(init, ys, f);
      forall i | 0 <= i < |ys|
        ensures Sum(xs, a => f(a, ys[i])) == Sum(init, a => f(a, ys[i])) + f(x, ys[i])
      {
        var b := ys[i];
        assert Sum(xs, a => f(a, b)) == Sum(init, a => f(a, b)) + f(x, b);
      }
      SumLinear(ys, b => Sum(init, a => f(a, b)), b => f(x, b), b => Sum(xs, a => f(a, b)));
    } else {
      SumZero(ys, b => Sum(xs, a => f(a, b)));
    }
  }

  /** Adding up a table by rows or by columns gives the same total. */
  lemma SumByRowsOrColumns<A, B>(xs: seq<A>, ys: seq<B>, rows: A -> (B -> real), cols: B -> (A -> real),
                                 rowTotal: A -> real, colTotal: B -> real)
    requires forall i, j :: 0 <= i < |xs| && 0 <= j < |ys| ==> rows(xs[i])(ys[j]) == cols(ys[j])(xs[i])
    requires forall i :: 0 <= i < |xs| ==> rowTotal(xs[i]) == Sum(ys, rows(xs[i]))
    requires forall j :: 0 <= j < |ys| ==> colTotal(ys[j]) == Sum(xs, cols(ys[j]))
    ensures Sum(xs, rowTotal) == Sum(ys, colTotal)
  {
    var f := (a, b) => rows(a)(b);
    forall i | 0 <= i < |xs| ensures rowTotal(xs[i]) == Sum(ys, b => f(xs[i], b)) {
      SumPointwise(ys, rows(xs[i]), b => f(xs[i], b));
    }
    SumPointwise(xs, rowTotal, a => Sum(ys, b => f(a, b)));
    SumSwap(xs, ys, f);
    forall j | 0 <= j < |ys| ensures colTotal(ys[j]) == Sum(xs, a => f(a, ys[j])) {
      SumPointwise(xs, cols(ys[j]), a => f(a, ys[j]));
    }
    SumPointwise(ys, colTotal, b => Sum(xs, a => f(a, b)));
  }

  /** The value `v` counted under key `k` only, for an element filed under `key`. */
  function AtKey<K(==)>(key: Option<K>, k: K, v: real): real {
    if key == Some(k) then v else 0.0
  }

  /** The total of the elements filed under key `k`. */
  function AtKeySum<K(==), T>(xs: seq<T>, key: T -> Option<K>, val: T -> real, k: K): real {
    Sum(xs, x => AtKey(key(x), k, val(x)))
  }

  lemma AtKeySumStep<K, T>(xs: seq<T>, i: nat, key: T -> Option<K>, val: T -> real, k: K)
    requires i < |xs|
    ensures AtKeySum(xs[..i + 1], key, val, k) == AtKeySum(xs[..i], key, val, k) + AtKey(key(xs[i]), k, val(xs[i]))
  {
    SumStep(xs, i, x => AtKey(key(x), k, val(x)));
  }

  /** Per-key totals are linear in the value counted. */
  lemma AtKeySumLinear<K, T>(xs: seq<T>, key: T -> Option<K>, f: T -> real, g: T -> real, h: T -> real, k: K)
    requires forall i :: 0 <= i < |xs| ==> h(xs[i]) == f(xs[i]) + g(xs[i])
    ensures AtKeySum(xs, key, h, k) == AtKeySum(xs, key, f, k) + AtKeySum(xs, key, g, k)
  {
    SumLinear(xs, x => AtKey(key(x), k, f(x)), x => AtKey(key(x), k, g(x)), x => AtKey(key(x), k, h(x)));
  }

  /** Filtering the elements first is counting 0 for the ones the filter drops. */
  lemma AtKeySumFilter<K, T>(xs: seq<T>, p: T -> bool, key: T -> Option<K>, val: T -> real, h: T -> real, k: K)
    requires forall i :: 0 <= i < |xs| ==> h(xs[i]) == if p(xs[i]) then val(xs[i]) else 0.0
    ensures AtKeySum(Filter(xs, p), key, val, k) == AtKeySum(xs, key, h, k)
  {
    var f := x => AtKey(key(x), k, val(x));
    SumFilter(xs, p, f);
    SumPointwise(xs, x => if p(x) then f(x) else 0.0, x => AtKey(key(x), k, h(x)));
  }

  /** When every element is filed under one of two different keys, the total is the two keys' totals. */
  lemma SumTwoKeys<K, T>(xs: seq<T>, key: T -> Option<K>, val: T -> real, a: K, b: K)
    requires a != b
    requires forall i :: 0 <= i < |xs| ==> key(xs[i]) == Some(a) || key(xs[i]) == Some(b)
    ensures Sum(xs, val) == AtKeySum(xs, key, val, a) + AtKeySum(xs, key, val, b)
  {
    SumLinear(xs, x => AtKey(key(x), a, val(x)), x => AtKey(key(x), b, val(x)), val);
  }

  /** `m` with `x` added under `key` when `key` is one of its keys. */
  function AddAt<K(==)>(m: map<K, real>, key: Option<K>, x: real): (r: map<K, real>)
    ensures r.Keys == m.Keys
    ensures forall k :: k in m ==> r[k] == m[k] + AtKey(key, k, x)
  {
    if key.Some? && key.value in m then m[key.value := m[key.value] + x] else m
  }

  /** The value `v` counted when `key` is one of `ks`. */
  function InKeys<K(==)>(key: Option<K>, ks: seq<K>, v: real): real {
    if key.Some? && key.value in ks then v else 0.0
  }

  /** The total of the elements filed under one of the keys `ks`. */
  function InKeysSum<K(==), T>(xs: seq<T>, key: T -> Option<K>, val: T -> real, ks: seq<K>): real {
    Sum(xs, x => InKeys(key(x), ks, val(x)))
  }

  /** When every element is filed under one of the keys `ks`, their total is the total of all. */
  lemma InKeysSumAll<K, T>(xs: seq<T>, key: T -> Option<K>, val: T -> real, ks: seq<K>)
    requires forall i :: 0 <= i < |xs| ==> key(xs[i]).Some? && key(xs[i]).value in ks
    ensures InKeysSum(xs, key, val, ks) == Sum(xs, val)
  {
    SumPointwise(xs, x => InKeys(key(x), ks, val(x)), val);
  }

  lemma InKeysSumLinear<K, T>(xs: seq<T>, key: T -> Option<K>, f: T -> real, g: T -> real, h: T -> real, ks: seq<K>)
    requires forall i :: 0 <= i < |xs| ==> h(xs[i]) == f(xs[i]) + g(xs[i])
    ensures InKeysSum(xs, key, h, ks) == InKeysSum(xs, key, f, ks) + InKeysSum(xs, key, g, ks)
  {
    SumLinear(xs, x => InKeys(key(x), ks, f(x)), x => InKeys(key(x), ks, g(x)), x => InKeys(key(x), ks, h(x)));
  }

  /** The sum of a map's values over the keys `ks`, a missing key counting as 0. */
  function TotalOf<K(==)>(m: map<K, real>, ks: seq<K>): real {
    Sum(ks, k => if k in m then m[k] else 0.0)
  }

  /** A map's total over `ks` is its total over all keys but the last, plus the last key's value. */
  lemma TotalOfStep<K>(m: map<K, real>, ks: seq<K>)
    requires |ks| > 0
    ensures TotalOf(m, ks) == TotalOf(m, ks[..|ks| - 1]) + (if ks[|ks| - 1] in m then m[ks[|ks| - 1]] else 0.0)
  {
  }

  /** The total of a map that is the sum of two others over the keys `ks`. */
  lemma TotalOfSum<K>(m: map<K, real>, m1: map<K, real>, m2: map<K, real>, ks: seq<K>)
    requires forall i :: 0 <= i < |ks| ==> ks[i] in m && ks[i] in m1 && ks[i] in m2 && m[ks[i]] == m1[ks[i]] + m2[ks[i]]
    ensures TotalOf(m, ks) == TotalOf(m1, ks) + TotalOf(m2, ks)
  {
    SumLinear(ks, k => if k in m1 then m1[k] else 0.0, k => if k in m2 then m2[k] else 0.0,
                  k => if k in m then m[k] else 0.0);
  }

  /** Per-key totals over distinct keys add up to the total of the elements filed under one of
      those keys: elements filed under no key, or under another key, are not counted. */
  lemma TotalOverKeys<K, T>(m: map<K, real>, ks: seq<K>, xs: seq<T>, key: T -> Option<K>, val: T -> real)
    requires forall i, j :: 0 <= i < j < |ks| ==> ks[i] != ks[j]
    requires forall i :: 0 <= i < |ks| ==> ks[i] in m && m[ks[i]] == AtKeySum(xs, key, val, ks[i])
    ensures TotalOf(m, ks) == InKeysSum(xs, key, val, ks)
  {
    var f := (k, x) => AtKey(key(x), k, val(x));
    forall i | 0 <= i < |ks|
      ensures AtKeySum(xs, key, val, ks[i]) == Sum(xs, x => f(ks[i], x))
    {
      SumPointwise(xs, x => AtKey(key(x), ks[i], val(x)), x => f(ks[i], x));
    }
    SumPointwise(ks, k => if k in m then m[k] else 0.0, k => Sum(xs, x => f(k, x)));
    SumSwap(ks, xs, f);
    forall i | 0 <= i < |xs|
      ensures Sum(ks, k => f(k, xs[i])) == InKeys(key(xs[i]), ks, val(xs[i]))
    {
      var x := xs[i];
      if key(x).Some? {
        SumIndicator(ks, key(x).value, val(x));
        SumPointwise(ks, k => f(k, x), k => if k == key(x).value then val(x) else 0.0);
      } else {
        SumZero(ks, k => f(k, x));
      }
    }
    SumPointwise(xs, x => Sum(ks, k => f(k, x)), x => InKeys(key(x), ks, val(x)));
  }

  /** The number of elements that satisfy `p`. */
  function Count<T>(s: seq<T>, p: T -> bool): (n: nat)
    ensures n <= |s|
  {
    if |s| == 0 then 0 else Count(s[..|s| - 1], p) + (if p(s[|s| - 1]) then 1 else 0)
  }

  lemma CountStep<T>(s: seq<T>, i: nat, p: T -> bool)
    requires i < |s|
    ensures Count(s[..i + 1], p) == Count(s[..i], p) + (if p(s[i]) then 1 else 0)
  {
    assert s[..i + 1][..i] == s[..i];
  }

  lemma {:induction false} CountPointwise<T>(s: seq<T>, p: T -> bool, q: T -> bool)
    requires forall i :: 0 <= i < |s| ==> p(s[i]) == q(s[i])
    ensures Count(s, p) == Count(s, q)
    decreases |s|
  {
    if |s| > 0 { CountPointwise(s[..|s| - 1], p, q); }
  }

  /** Every element satisfies exactly one of `p` and its negation. */
  lemma {:induction false} CountComplement<T>(s: seq<T>, p: T -> bool, q: T -> bool)
    requires forall i :: 0 <= i < |s| ==> q(s[i]) == !p(s[i])
    ensures Count(s, p) + Count(s, q) == |s|
    decreases |s|
  {
    if |s| > 0 { CountComplement(s[..|s| - 1], p, q); }
  }

  /** `s.filter(p)` */
  function Filter<T>(s: seq<T>, p: T -> bool): (r: seq<T>)
    ensures |r| <= |s|
    ensures forall i :: 0 <= i < |r| ==> p(r[i]) && r[i] in s
  {
    if |s| == 0 then []
    else Filter(s[..|s| - 1], p) + (if p(s[|s| - 1]) then [s[|s| - 1]] else [])
  }

  /** A filter that every element passes keeps the whole sequence. */
  lemma {:induction false} FilterAll<T>(s: seq<T>, p: T -> bool)
    requires forall i :: 0 <= i < |s| ==> p(s[i])
    ensures Filter(s, p) == s
    decreases |s|
  {
    if |s| > 0 {
      FilterAll(s[..|s| - 1], p);
      assert s == s[..|s| - 1] + [s[|s| - 1]];
    }
  }

  lemma {:induction false} FilterSize<T>(s: seq<T>, p: T -> bool)
    ensures |Filter(s, p)| == Count(s, p)
    decreases |s|
  {
    if |s| > 0 { FilterSize(s[..|s| - 1], p); }
  }

  lemma {:induction false} FilterMembership<T>(s: seq<T>, p: T -> bool, x: T)
    ensures x in Filter(s, p) <==> x in s && p(x)
    decreases |s|
  {
    if |s| > 0 {
      FilterMembership(s[..|s| - 1], p, x);
      assert s == s[..|s| - 1] + [s[|s| - 1]];
    }
  }

  /** Summing over the elements a filter keeps is summing a function that is 0 on the others. */
  lemma {:induction false} SumFilterAs<T>(s: seq<T>, p: T -> bool, f: T -> real, g: T -> real)
    requires forall i :: 0 <= i < |s| ==> g(s[i]) == if p(s[i]) then f(s[i]) else 0.0
    ensures Sum(Filter(s, p), f) == Sum(s, g)
    decreases |s|
  {
    if |s| > 0 {
      var init := s[..|s| - 1];
      SumFilterAs(init, p, f, g);
      var last := s[|s| - 1];
      SumAppend(Filter(init, p), if p(last) then [last] else [], f);
      if p(last) { assert [last][..0] == []; }
    }
  }

  /** Filtering distributes over concatenation. */
  lemma {:induction false} FilterAppend<T>(a: seq<T>, b: seq<T>, p: T -> bool)
    ensures Filter(a + b, p) == Filter(a, p) + Filter(b, p)
    decreases |b|
  {
    if |b| > 0 {
      var b0 := b[..|b| - 1];
      FilterAppend(a, b0, p);
      assert (a + b)[..|a + b| - 1] == a + b0;
    } else {
      assert a + b == a;
    }
  }

  /** Two filters whose conditions do not overlap keep, together, what the filter on either
      condition keeps. */
  lemma {:induction false} FilterUnion<T>(s: seq<T>, p: T -> bool, q: T -> bool, r: T -> bool)
    requires forall i :: 0 <= i < |s| ==> (r(s[i]) <==> p(s[i]) || q(s[i])) && !(p(s[i]) && q(s[i]))
    ensures multiset(Filter(s, r)) == multiset(Filter(s, p)) + multiset(Filter(s, q))
    decreases |s|
  {
    if |s| > 0 {
      FilterUnion(s[..|s| - 1], p, q, r);
    }
  }

  /** A filter and its complement split the sequence. */
  lemma {:induction false} FilterComplement<T>(s: seq<T>, p: T -> bool, q: T -> bool)
    requires forall i :: 0 <= i < |s| ==> p(s[i]) != q(s[i])
    ensures multiset(Filter(s, p)) + multiset(Filter(s, q)) == multiset(s)
    decreases |s|
  {
    if |s| > 0 {
      var init, last := s[..|s| - 1], s[|s| - 1];
      FilterComplement(init, p, q);
      assert Filter(s, p) == Filter(init, p) + (if p(last) then [last] else []);
      assert Filter(s, q) == Filter(init, q) + (if q(last) then [last] else []);
      assert s == init + [last];
      assert multiset(s) == multiset(init) + multiset{last};
    }
  }

  /** Summing over the elements a filter keeps is summing with the others counted as 0. */
  lemma {:induction false} SumFilter<T>(s: seq<T>, p: T -> bool, f: T -> real)
    ensures Sum(Filter(s, p), f) == Sum(s, x => if p(x) then f(x) else 0.0)
    decreases |s|
  {
    if |s| > 0 {
      var init := s[..|s| - 1];
      SumFilter(init, p, f);
      var last := s[|s| - 1];
      SumAppend(Filter(init, p), if p(last) then [last] else [], f);
      if p(last) { assert [last][..0] == []; }
    }
  }

  /** `new Map(entries)`: the keys of the entries, each with the value of its last entry. */
  function MapFromEntries<K(==), V>(es: seq<(K, V)>): (m: map<K, V>)
    ensures m.Keys == set i | 0 <= i < |es| :: es[i].0
  {
    if |es| == 0 then map[]
    else
      var n := |es| - 1;
      var init := es[..n];
      var m := MapFromEntries(init)[es[n].0 := es[n].1];
      assert m.Keys == set i | 0 <= i < |es| :: es[i].0 by {
        assert forall i :: 0 <= i < n ==> init[i] == es[i];
        assert (set i | 0 <= i < |es| :: es[i].0) == (set i | 0 <= i < n :: init[i].0) + {es[n].0};
      }
      m
  }

  /** A key whose entry is the last one for it maps to that entry's value. */
  lemma {:induction false} MapFromEntriesLast<K, V>(es: seq<(K, V)>)
    ensures forall i :: 0 <= i < |es| && (forall j :: i < j < |es| ==> es[j].0 != es[i].0) ==>
      MapFromEntries(es)[es[i].0] == es[i].1
  {
    if |es| > 0 {
      var n := |es| - 1;
      var init := es[..n];
      MapFromEntriesLast(init);
      forall i | 0 <= i < |es| && (forall j :: i < j < |es| ==> es[j].0 != es[i].0)
        ensures MapFromEntries(es)[es[i].0] == es[i].1
      {
        if i < n {
          assert init[i] == es[i];
          assert es[n].0 != es[i].0;
          forall j | i < j < n ensures init[j].0 != init[i].0 {
            assert init[j] == es[j];
          }
        }
      }
    }
  }

  /** The distinct elements of `s` in order of first occurrence (the key order of a JavaScript `Map`
      or `Set` built by inserting the elements of `s`). */
  function Distinct<T(==)>(s: seq<T>): (r: seq<T>)
    ensures forall i :: 0 <= i < |r| ==> r[i] in s
    ensures forall i :: 0 <= i < |s| ==> s[i] in r
    ensures forall i, j :: 0 <= i < j < |r| ==> r[i] != r[j]
  {
    if |s| == 0 then []
    else
      var r := Distinct(s[..|s| - 1]);
      assert forall i :: 0 <= i < |s| - 1 ==> s[i] == s[..|s| - 1][i];
      if s[|s| - 1] in r then r else r + [s[|s| - 1]]
  }

  /** Inserting one more element into a `Set` or `Map` appends it to the key order if it is new. */
  lemma DistinctSnoc<T>(s: seq<T>, x: T)
    ensures Distinct(s + [x]) == if x in Distinct(s) then Distinct(s) else Distinct(s) + [x]
  {
    assert (s + [x])[..|s|] == s;
  }

  /** Removing repetitions keeps exactly the same elements. */
  lemma DistinctMembership<T>(s: seq<T>, x: T)
    ensures x in Distinct(s) <==> x in s
  {
    if x in s {
      var j :| 0 <= j < |s| && s[j] == x;
    }
  }

  /** The keys of the elements that have one, in order, with repetitions. */
  function KeysOf<T, K>(xs: seq<T>, key: T -> Option<K>): (r: seq<K>)
    ensures |r| <= |xs|
  {
    if |xs| == 0 then []
    else
      var k := key(xs[|xs| - 1]);
      KeysOf(xs[..|xs| - 1], key) + (if k.Some? then [k.value] else [])
  }

  /** A key is listed exactly when some element has it. */
  lemma {:induction false} KeysOfMembership<T, K>(xs: seq<T>, key: T -> Option<K>, k: K)
    ensures k in KeysOf(xs, key) <==> exists i :: 0 <= i < |xs| && key(xs[i]) == Some(k)
    decreases |xs|
  {
    if |xs| > 0 {
      var n := |xs| - 1;
      KeysOfMembership(xs[..n], key, k);
      assert forall i :: 0 <= i < n ==> xs[..n][i] == xs[i];
    }
  }

  lemma KeysOfStep<T, K>(xs: seq<T>, i: nat, key: T -> Option<K>)
    requires i < |xs|
    ensures KeysOf(xs[..i + 1], key) == KeysOf(xs[..i], key) + (if key(xs[i]).Some? then [key(xs[i]).value] else [])
  {
    assert xs[..i + 1][..i] == xs[..i];
  }

  /** The total under each key that some element has: the `Map` that
      `m.set(k, (m.get(k) || 0) + v)` fills in a loop over the elements. */
  function Totals<T, K(==)>(xs: seq<T>, key: T -> Option<K>, val: T -> real): map<K, real> {
    map k | k in KeysOf(xs, key) :: AtKeySum(xs, key, val, k)
  }

  /** Totals of two value functions that agree on every element are equal. */
  lemma TotalsPointwise<T, K>(xs: seq<T>, key: T -> Option<K>, f: T -> real, g: T -> real)
    requires forall i :: 0 <= i < |xs| ==> f(xs[i]) == g(xs[i])
    ensures Totals(xs, key, f) == Totals(xs, key, g)
  {
    forall k | k in KeysOf(xs, key) ensures AtKeySum(xs, key, f, k) == AtKeySum(xs, key, g, k) {
      SumPointwise(xs, x => AtKey(key(x), k, f(x)), x => AtKey(key(x), k, g(x)));
    }
  }

  /** A key no element has totals 0. */
  lemma {:induction false} AtKeySumAbsent<T, K>(xs: seq<T>, key: T -> Option<K>, val: T -> real, k: K)
    requires k !in KeysOf(xs, key)
    ensures AtKeySum(xs, key, val, k) == 0.0
    decreases |xs|
  {
    if |xs| > 0 {
      var n := |xs| - 1;
      KeysOfStep(xs, n, key);
      assert xs[..n + 1] == xs;
      AtKeySumAbsent(xs[..n], key, val, k);
      AtKeySumStep(xs, n, key, val, k);
    }
  }

  /** One step of the loop that fills the totals. */
  lemma TotalsStep<T, K>(xs: seq<T>, i: nat, key: T -> Option<K>, val: T -> real)
    requires i < |xs|
    ensures var m := Totals(xs[..i], key, val);
      var k := key(xs[i]);
      Totals(xs[..i + 1], key, val)
        == if k.None? then m else m[k.value := (if k.value in m then m[k.value] else 0.0) + val(xs[i])]
  {
    var m := Totals(xs[..i], key, val);
    var m' := Totals(xs[..i + 1], key, val);
    var k := key(xs[i]);
    KeysOfStep(xs, i, key);
    var expected := if k.None? then m else m[k.value := (if k.value in m then m[k.value] else 0.0) + val(xs[i])];
    assert m'.Keys == expected.Keys;
    forall j | j in m' ensures m'[j] == expected[j] {
      AtKeySumStep(xs, i, key, val, j);
      if k == Some(j) && j !in KeysOf(xs[..i], key) {
        AtKeySumAbsent(xs[..i], key, val, j);
      }
    }
  }

  /** When every element with a key under `key2` has the key `k0` under `key1`, and no element has
      `k0`, no element has a key under `key2`. */
  lemma {:induction false} KeysOfEmpty<T, K, L>(xs: seq<T>, key1: T -> Option<K>, key2: T -> Option<L>, k0: K)
    requires forall i :: 0 <= i < |xs| && key2(xs[i]).Some? ==> key1(xs[i]) == Some(k0)
    requires k0 !in KeysOf(xs, key1)
    ensures KeysOf(xs, key2) == []
    decreases |xs|
  {
    if |xs| > 0 {
      var n := |xs| - 1;
      KeysOfStep(xs, n, key1);
      KeysOfStep(xs, n, key2);
      assert xs[..n + 1] == xs;
      KeysOfEmpty(xs[..n], key1, key2, k0);
    }
  }

  /** The sum of a map's values, taken in no particular order (`Object.values(obj).reduce`, or a
      loop over the entries of a `Map`). */
  ghost function MapSum<K>(row: map<K, real>): real
    decreases |row|
  {
    if row == map[] then 0.0
    else
      var k :| k in row;
      row[k] + MapSum(row - {k})
  }

  /** Any key can be taken first: the sum does not depend on the order of the values. */
  lemma {:induction false} MapSumRemove<K>(row: map<K, real>, k: K)
    requires k in row
    ensures MapSum(row) == row[k] + MapSum(row - {k})
    decreases |row|
  {
    var j :| j in row && MapSum(row) == row[j] + MapSum(row - {j});
    if j != k {
      MapSumRemove(row - {j}, k);
      MapSumRemove(row - {k}, j);
      assert row - {j} - {k} == row - {k} - {j};
    }
  }

  /** The values of a row whose keys are among the distinct keys `ks` add up to its total over `ks`. */
  lemma {:induction false} MapSumOverKeys<K>(row: map<K, real>, ks: seq<K>)
    requires forall i, j :: 0 <= i < j < |ks| ==> ks[i] != ks[j]
    requires forall k :: k in row ==> k in ks
    ensures MapSum(row) == TotalOf(row, ks)
    decreases |ks|
  {
    if |ks| == 0 {
      assert row.Keys == {};
      assert row == map[];
    } else {
      var n := |ks| - 1;
      var last := ks[n];
      var init := ks[..n];
      assert last !in init;
      if last in row {
        var rest := row - {last};
        MapSumRemove(row, last);
        MapSumOverKeys(rest, init);
        SumPointwise(init, k => if k in rest then rest[k] else 0.0, k => if k in row then row[k] else 0.0);
      } else {
        MapSumOverKeys(row, init);
      }
    }
  }
}
