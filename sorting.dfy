/** `Array.prototype.sort` with a comparator, modelled as a stable insertion
    sort parameterised by a total preorder `le` ("a may come before b"). */
module Sorting {

  ghost predicate TotalPreorder<T(!new)>(le: (T, T) -> bool) {
    (forall a, b :: le(a, b) || le(b, a))
    && (forall a, b, c :: le(a, b) && le(b, c) ==> le(a, c))
  }

  predicate Sorted<T>(s: seq<T>, le: (T, T) -> bool) {
    forall i, j :: 0 <= i < j < |s| ==> le(s[i], s[j])
  }

  /** Puts `x` before the first element it may precede. */
  function Insert<T>(x: T, s: seq<T>, le: (T, T) -> bool): seq<T>
  {
    if |s| == 0 then [x]
    else if le(x, s[0]) then [x] + s
    else [s[0]] + Insert(x, s[1..], le)
  }

  lemma {:induction false} InsertMultiset<T>(x: T, s: seq<T>, le: (T, T) -> bool)
    ensures multiset(Insert(x, s, le)) == multiset(s) + multiset{x}
    ensures |Insert(x, s, le)| == |s| + 1
    decreases |s|
  {
    if |s| > 0 && !le(x, s[0]) {
      InsertMultiset(x, s[1..], le);
      assert s == [s[0]] + s[1..];
    }
  }

  /** Every element of the insertion is `x` or an element of `s`. */
  lemma {:induction false} InsertMembers<T>(x: T, s: seq<T>, le: (T, T) -> bool, j: nat)
    requires j < |Insert(x, s, le)|
    ensures Insert(x, s, le)[j] == x || Insert(x, s, le)[j] in s
    decreases |s|
  {
    if |s| > 0 && !le(x, s[0]) && j > 0 {
      InsertMembers(x, s[1..], le, j - 1);
    }
  }

  lemma {:induction false} InsertSorted<T(!new)>(x: T, s: seq<T>, le: (T, T) -> bool)
    requires TotalPreorder(le) && Sorted(s, le)
    ensures multiset(Insert(x, s, le)) == multiset(s) + multiset{x}
    ensures |Insert(x, s, le)| == |s| + 1
    ensures Sorted(Insert(x, s, le), le)
    decreases |s|
  {
    InsertMultiset(x, s, le);
    if |s| > 0 {
      if le(x, s[0]) {
        assert forall j :: 0 < j < |s| ==> le(s[0], s[j]);
      } else {
        var rest := Insert(x, s[1..], le);
        InsertSorted(x, s[1..], le);
        forall j | 0 <= j < |rest| ensures le(s[0], rest[j]) {
          InsertMembers(x, s[1..], le, j);
        }
      }
    }
  }

  /** The elements of `s` in an order that respects `le`. */
  function Sort<T(!new)>(s: seq<T>, le: (T, T) -> bool): (r: seq<T>)
    requires TotalPreorder(le)
    ensures multiset(r) == multiset(s) && |r| == |s|
    ensures Sorted(r, le)
  {
    if |s| == 0 then []
    else
      var rest := Sort(s[1..], le);
      InsertSorted(s[0], rest, le);
      assert s == [s[0]] + s[1..];
      assert multiset(s) == multiset(s[1..]) + multiset{s[0]};
      Insert(s[0], rest, le)
  }

  /** A permutation has the same elements. */
  lemma PermutationElements<T>(a: seq<T>, b: seq<T>)
    requires multiset(a) == multiset(b)
    ensures forall j :: 0 <= j < |b| ==> b[j] in a
  {
    forall j | 0 <= j < |b| ensures b[j] in a {
      assert b[j] in multiset(b);
    }
  }

  /** Sorting elements that are pairwise distinct under an antisymmetric order gives a strictly
      increasing sequence. */
  lemma SortDistinctStrict<T(!new)>(s: seq<T>, le: (T, T) -> bool)
    requires TotalPreorder(le)
    requires forall a, b :: le(a, b) && le(b, a) ==> a == b
    requires forall i, j :: 0 <= i < j < |s| ==> s[i] != s[j]
    ensures var r := Sort(s, le);
      forall i, j :: 0 <= i < j < |r| ==> le(r[i], r[j]) && !le(r[j], r[i])
  {
    var r := Sort(s, le);
    forall i, j | 0 <= i < j < |r| ensures r[i] != r[j] {
      DistinctPreserved(s, r, i, j);
    }
  }

  lemma DistinctPreserved<T>(s: seq<T>, r: seq<T>, i: nat, j: nat)
    requires multiset(r) == multiset(s)
    requires forall a, b :: 0 <= a < b < |s| ==> s[a] != s[b]
    requires i < j < |r|
    ensures r[i] != r[j]
  {
    var x := r[i];
    DistinctCount(s, x);
    assert r == r[..i] + [x] + r[i + 1..j] + [r[j]] + r[j + 1..];
    assert multiset(r)[x] >= 1 + multiset([r[j]])[x];
  }

  lemma {:induction false} DistinctCount<T>(s: seq<T>, x: T)
    requires forall a, b :: 0 <= a < b < |s| ==> s[a] != s[b]
    ensures multiset(s)[x] <= 1
    decreases |s|
  {
    if |s| > 0 {
      DistinctCount(s[1..], x);
      assert s == [s[0]] + s[1..];
      if s[0] == x {
        assert x !in s[1..];
      }
    }
  }

  /** JavaScript's default string order, character by character; a proper prefix comes first. */
  predicate LexLe(a: string, b: string)
  {
    |a| == 0 || (|b| > 0 && (a[0] < b[0] || (a[0] == b[0] && LexLe(a[1..], b[1..]))))
  }

  lemma {:induction false} LexLeTotal(a: string, b: string)
    ensures LexLe(a, b) || LexLe(b, a)
    decreases |a|
  {
    if |a| > 0 && |b| > 0 && a[0] == b[0] { LexLeTotal(a[1..], b[1..]); }
  }

  lemma {:induction false} LexLeTransitive(a: string, b: string, c: string)
    requires LexLe(a, b) && LexLe(b, c)
    ensures LexLe(a, c)
    decreases |a|
  {
    if |a| > 0 && a[0] == b[0] && b[0] == c[0] { LexLeTransitive(a[1..], b[1..], c[1..]); }
  }

  lemma {:induction false} LexLeAntisymmetric(a: string, b: string)
    requires LexLe(a, b) && LexLe(b, a)
    ensures a == b
    decreases |a|
  {
    if |a| > 0 {
      LexLeAntisymmetric(a[1..], b[1..]);
      assert a == [a[0]] + a[1..] && b == [b[0]] + b[1..];
    }
  }

  lemma LexLeIsTotalPreorder()
    ensures TotalPreorder(LexLe)
    ensures forall a, b :: LexLe(a, b) && LexLe(b, a) ==> a == b
  {
    forall a, b ensures LexLe(a, b) || LexLe(b, a) { LexLeTotal(a, b); }
    forall a, b, c | LexLe(a, b) && LexLe(b, c) ensures LexLe(a, c) { LexLeTransitive(a, b, c); }
    forall a, b | LexLe(a, b) && LexLe(b, a) ensures a == b { LexLeAntisymmetric(a, b); }
  }

  /** `Array.from(keys).sort()` on distinct strings: the same keys, strictly ascending in that
      character order. */
  function SortKeys(s: seq<string>): (r: seq<string>)
    requires forall i, j :: 0 <= i < j < |s| ==> s[i] != s[j]
    ensures multiset(r) == multiset(s) && |r| == |s|
    ensures forall i, j :: 0 <= i < j < |r| ==> LexLe(r[i], r[j]) && r[i] != r[j]
  {
    LexLeIsTotalPreorder();
    var r := Sort(s, LexLe);
    assert forall i, j :: 0 <= i < j < |r| ==> r[i] != r[j] by {
      forall i, j | 0 <= i < j < |r| ensures r[i] != r[j] {
        DistinctPreserved(s, r, i, j);
      }
    }
    r
  }
}
