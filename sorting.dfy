/**
 * `Array.prototype.sort` with a comparator on one key, as the reminder list,
 * the page search and the e-mail report use it: a stable sort, so records
 * whose keys tie keep the order they had.
 */
module Sorting {

  /** `before` is a strict total order on keys (numbers by `<` or `>`, strings lexicographically). */
  ghost predicate StrictTotal<K(!new)>(before: (K, K) -> bool)
  {
    && (forall a :: !before(a, a))
    && (forall a, b, c :: before(a, b) && before(b, c) ==> before(a, c))
    && (forall a, b :: a != b ==> before(a, b) || before(b, a))
  }

  /** No element is placed after one whose key should come after its own. */
  ghost predicate SortedBy<T, K>(s: seq<T>, key: T -> K, before: (K, K) -> bool)
  {
    forall i, j :: 0 <= i < j < |s| ==> !before(key(s[j]), key(s[i]))
  }

  /** The elements of `s` whose key is `c`, in order: one tie class. */
  function WithKey<T, K(==)>(s: seq<T>, key: T -> K, c: K): (r: seq<T>)
    decreases |s|
  {
    if s == [] then [] else (if key(s[0]) == c then [s[0]] else []) + WithKey(s[1..], key, c)
  }

  /** Put `x` in front of the first element that does not go strictly before it. */
  function Insert<T, K>(x: T, t: seq<T>, key: T -> K, before: (K, K) -> bool): (r: seq<T>)
    ensures multiset(r) == multiset(t) + multiset{x}
    decreases |t|
  {
    if t == [] || !before(key(t[0]), key(x)) then [x] + t
    else
      assert t == [t[0]] + t[1..];
      [t[0]] + Insert(x, t[1..], key, before)
  }

  /** The stable sort of `s` by `key` under `before`. */
  function SortBy<T, K>(s: seq<T>, key: T -> K, before: (K, K) -> bool): (r: seq<T>)
    ensures multiset(r) == multiset(s)
    ensures |r| == |s|
    decreases |s|
  {
    if s == [] then []
    else
      var r := Insert(s[0], SortBy(s[1..], key, before), key, before);
      assert s == [s[0]] + s[1..];
      assert |r| == |multiset(r)|;
      r
  }

  lemma NotBeforeTransitive<K(!new)>(before: (K, K) -> bool, a: K, b: K, c: K)
    requires StrictTotal(before) && !before(a, b) && !before(b, c)
    ensures !before(a, c)
  {
  }

  lemma {:induction false} InsertSorted<T, K(!new)>(x: T, t: seq<T>, key: T -> K, before: (K, K) -> bool)
    requires StrictTotal(before) && SortedBy(t, key, before)
    ensures SortedBy(Insert(x, t, key, before), key, before)
    decreases |t|
  {
    var r := Insert(x, t, key, before);
    if t == [] {
    } else if !before(key(t[0]), key(x)) {
      assert r == [x] + t;
      forall j | 1 < j < |r| ensures !before(key(r[j]), key(r[0])) {
        assert r[j] == t[j - 1];
        NotBeforeTransitive(before, key(t[j - 1]), key(t[0]), key(x));
      }
    } else {
      InsertSorted(x, t[1..], key, before);
      var tail := Insert(x, t[1..], key, before);
      assert r == [t[0]] + tail;
      forall j | 0 < j < |r| ensures !before(key(r[j]), key(t[0])) {
        assert r[j] in multiset(tail);
        assert r[j] in multiset(t[1..]) + multiset{x};
        if r[j] != x {
          assert r[j] in t[1..];
          var q :| 0 <= q < |t[1..]| && t[1..][q] == r[j];
          assert t[q + 1] == r[j];
        }
      }
    }
  }

  /** The result is in order. */
  lemma {:induction false} SortSorted<T, K(!new)>(s: seq<T>, key: T -> K, before: (K, K) -> bool)
    requires StrictTotal(before)
    ensures SortedBy(SortBy(s, key, before), key, before)
    decreases |s|
  {
    if s != [] {
      SortSorted(s[1..], key, before);
      InsertSorted(s[0], SortBy(s[1..], key, before), key, before);
    }
  }

  lemma {:induction false} InsertTies<T, K(!new)>(x: T, t: seq<T>, key: T -> K, before: (K, K) -> bool, c: K)
    requires forall a :: !before(a, a)
    ensures WithKey(Insert(x, t, key, before), key, c)
      == (if key(x) == c then [x] else []) + WithKey(t, key, c)
    decreases |t|
  {
    var r := Insert(x, t, key, before);
    if t == [] || !before(key(t[0]), key(x)) {
      assert r == [x] + t && r[0] == x && r[1..] == t;
    } else {
      var tail := Insert(x, t[1..], key, before);
      InsertTies(x, t[1..], key, before, c);
      assert r == [t[0]] + tail && r[0] == t[0] && r[1..] == tail;
      assert key(t[0]) != key(x);
      var hx: seq<T> := if key(x) == c then [x] else [];
      var ht: seq<T> := if key(t[0]) == c then [t[0]] else [];
      assert WithKey(r, key, c) == ht + (hx + WithKey(t[1..], key, c));
      assert WithKey(t, key, c) == ht + WithKey(t[1..], key, c);
      assert hx == [] || ht == [];
    }
  }

  /** Stability: within every tie class the order of `s` is kept. */
  lemma {:induction false} SortStable<T, K(!new)>(s: seq<T>, key: T -> K, before: (K, K) -> bool, c: K)
    requires forall a :: !before(a, a)
    ensures WithKey(SortBy(s, key, before), key, c) == WithKey(s, key, c)
    decreases |s|
  {
    if s != [] {
      SortStable(s[1..], key, before, c);
      InsertTies(s[0], SortBy(s[1..], key, before), key, before, c);
    }
  }

  /** Larger numbers first: the comparator `(a, b) => b - a`. */
  function Descending(a: int, b: int): bool { a > b }

  lemma DescendingIsStrictTotal()
    ensures StrictTotal(Descending)
  {
  }

  /** Smaller numbers first: the comparator `(a, b) => a - b`. */
  function Ascending(a: int, b: int): bool { a < b }

  lemma AscendingIsStrictTotal()
    ensures StrictTotal(Ascending)
  {
  }

  /** Lexicographic order on strings, by character code. */
  predicate LexLess(a: string, b: string)
  {
    if a == [] then b != []
    else if b == [] then false
    else if a[0] != b[0] then a[0] < b[0]
    else LexLess(a[1..], b[1..])
  }

  lemma {:induction false} LexIrreflexive(a: string)
    ensures !LexLess(a, a)
  {
    if a != [] { LexIrreflexive(a[1..]); }
  }

  lemma {:induction false} LexTransitive(a: string, b: string, c: string)
    requires LexLess(a, b) && LexLess(b, c)
    ensures LexLess(a, c)
  {
    if a != [] && b != [] && c != [] && a[0] == b[0] && b[0] == c[0] {
      LexTransitive(a[1..], b[1..], c[1..]);
    }
  }

  lemma {:induction false} LexTotal(a: string, b: string)
    requires a != b
    ensures LexLess(a, b) || LexLess(b, a)
  {
    if a != [] && b != [] && a[0] == b[0] {
      assert a == [a[0]] + a[1..] && b == [b[0]] + b[1..];
      LexTotal(a[1..], b[1..]);
    }
  }

  lemma LexIsStrictTotal()
    ensures StrictTotal(LexLess)
  {
    forall a ensures !LexLess(a, a) { LexIrreflexive(a); }
    forall a, b, c | LexLess(a, b) && LexLess(b, c) ensures LexLess(a, c) { LexTransitive(a, b, c); }
    forall a, b | a != b ensures LexLess(a, b) || LexLess(b, a) { LexTotal(a, b); }
  }
}
