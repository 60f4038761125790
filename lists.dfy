/**
 * The list operations every store repeats: `filter` (used to delete by id
 * and to select a day's or a user's records), `map` with a per-record
 * update, and the counts and sums the statistics cards show.
 */
module Lists {

  /** `s.filter(p)`: the elements satisfying `p`, in their original order. */
  function Filter<T>(s: seq<T>, p: T -> bool): (r: seq<T>)
    ensures |r| <= |s|
    ensures forall k :: 0 <= k < |r| ==> r[k] in s && p(r[k])
    ensures forall k :: 0 <= k < |s| && p(s[k]) ==> s[k] in r
    decreases |s|
  {
    if s == [] then []
    else if p(s[0]) then [s[0]] + Filter(s[1..], p)
    else Filter(s[1..], p)
  }

  /** Filtering keeps the order: it distributes over concatenation. */
  lemma {:induction false} FilterAppend<T>(a: seq<T>, b: seq<T>, p: T -> bool)
    ensures Filter(a + b, p) == Filter(a, p) + Filter(b, p)
    decreases |a|
  {
    if a != [] {
      assert (a + b)[0] == a[0] && (a + b)[1..] == a[1..] + b;
      FilterAppend(a[1..], b, p);
    } else {
      assert a + b == b;
    }
  }

  /** When every element passes, the filter changes nothing. */
  lemma {:induction false} FilterAll<T>(s: seq<T>, p: T -> bool)
    requires forall k :: 0 <= k < |s| ==> p(s[k])
    ensures Filter(s, p) == s
    decreases |s|
  {
    if s != [] {
      FilterAll(s[1..], p);
    }
  }

  /** The number of elements satisfying `p`. */
  function Count<T>(s: seq<T>, p: T -> bool): (n: nat)
    ensures n <= |s|
    ensures n == |Filter(s, p)|
    decreases |s|
  {
    if s == [] then 0 else (if p(s[0]) then 1 else 0) + Count(s[1..], p)
  }

  lemma {:induction false} CountAppend<T>(a: seq<T>, b: seq<T>, p: T -> bool)
    ensures Count(a + b, p) == Count(a, p) + Count(b, p)
    decreases |a|
  {
    if a != [] {
      assert (a + b)[0] == a[0] && (a + b)[1..] == a[1..] + b;
      CountAppend(a[1..], b, p);
    } else {
      assert a + b == b;
    }
  }

  /** The elements satisfying `p` and those that do not together make up the list. */
  lemma {:induction false} CountSplit<T>(s: seq<T>, p: T -> bool)
    ensures Count(s, p) + Count(s, x => !p(x)) == |s|
    decreases |s|
  {
    if s != [] {
      CountSplit(s[1..], p);
    }
  }

  /** The elements satisfying `p` and those that do not are, together, exactly the list's elements. */
  lemma {:induction false} FilterPartition<T>(s: seq<T>, p: T -> bool, q: T -> bool)
    requires forall x :: q(x) == !p(x)
    ensures multiset(Filter(s, p)) + multiset(Filter(s, q)) == multiset(s)
    decreases |s|
  {
    if s != [] {
      FilterPartition(s[1..], p, q);
      assert s == [s[0]] + s[1..];
    }
  }

  /** `s.map(x => hit(x) ? f(x) : x)`: update the matching records, keep the rest. */
  function MapWhere<T>(s: seq<T>, hit: T -> bool, f: T -> T): (r: seq<T>)
    ensures |r| == |s|
    ensures forall k :: 0 <= k < |s| ==> r[k] == if hit(s[k]) then f(s[k]) else s[k]
  {
    seq(|s|, k requires 0 <= k < |s| => if hit(s[k]) then f(s[k]) else s[k])
  }

  /** `s.reduce((a, x) => a + f(x), 0)`. */
  function Sum<T>(s: seq<T>, f: T -> int): int
    decreases |s|
  {
    if s == [] then 0 else f(s[0]) + Sum(s[1..], f)
  }

  lemma {:induction false} SumAppend<T>(a: seq<T>, b: seq<T>, f: T -> int)
    ensures Sum(a + b, f) == Sum(a, f) + Sum(b, f)
    decreases |a|
  {
    if a != [] {
      assert (a + b)[0] == a[0] && (a + b)[1..] == a[1..] + b;
      SumAppend(a[1..], b, f);
    } else {
      assert a + b == b;
    }
  }

  lemma {:induction false} SumNonNegative<T>(s: seq<T>, f: T -> int)
    requires forall k :: 0 <= k < |s| ==> f(s[k]) >= 0
    ensures Sum(s, f) >= 0
    decreases |s|
  {
    if s != [] {
      SumNonNegative(s[1..], f);
    }
  }

  /** `s.slice(0, n)`. */
  function Take<T>(s: seq<T>, n: nat): (r: seq<T>)
    ensures |r| <= n && |r| <= |s|
    ensures r == s[..|r|]
    ensures |s| <= n ==> r == s
  {
    if |s| <= n then s else s[..n]
  }

  /**
   * `p` is `Math.round(100 * part / whole)`, 0 for an empty whole: the
   * percentage plus one half lies in `[p, p + 1)`, written over the common
   * denominator `2 * whole`.
   */
  predicate RoundedPercent(p: int, part: nat, whole: nat)
  {
    if whole == 0 then p == 0 else 2 * whole * p <= 200 * part + whole < 2 * whole * (p + 1)
  }

  /** The rounded percentage is one number: two values that both round it are equal. */
  lemma RoundedPercentUnique(p: int, q: int, part: nat, whole: nat)
    requires RoundedPercent(p, part, whole) && RoundedPercent(q, part, whole)
    ensures p == q
  {
    if whole > 0 {
      if p < q {
        IntMulMonotone(2 * whole, p + 1, q);
      } else if q < p {
        IntMulMonotone(2 * whole, q + 1, p);
      }
    }
  }

  /** Multiplying by a positive number keeps the order of two integers. */
  lemma IntMulMonotone(b: nat, x: int, y: int)
    requires x <= y
    ensures b * x <= b * y
  {
    assert b * y - b * x == b * (y - x);
  }

  /** `Math.round(100 * part / whole)` with `0` for an empty whole, on integers (halves round up). */
  function Percent(part: nat, whole: nat): (p: nat)
    ensures RoundedPercent(p, part, whole)
    ensures whole == 0 ==> p == 0
    ensures part <= whole ==> p <= 100
    ensures whole > 0 && part == whole ==> p == 100
  {
    if whole == 0 then 0
    else
      PercentBounds(part, whole);
      DivBounds(200 * part + whole, 2 * whole);
      (200 * part + whole) / (2 * whole)
  }

  /** Euclidean division: the quotient times the divisor is at most the dividend, and one more is past it. */
  lemma DivBounds(a: nat, b: nat)
    requires b > 0
    ensures b * (a / b) <= a < b * (a / b + 1)
  {
    var q, r := a / b, a % b;
    assert a == b * q + r;
    assert b * (q + 1) == b * q + b;
  }

  /** The rounding stays within 0..100 for a part of the whole, and a whole part is exactly 100. */
  lemma PercentBounds(part: nat, whole: nat)
    requires whole > 0
    ensures part <= whole ==> (200 * part + whole) / (2 * whole) <= 100
    ensures part == whole ==> (200 * part + whole) / (2 * whole) == 100
  {
    if part <= whole {
      DivBelow(200 * part + whole, 2 * whole, 101);
    }
    if part == whole {
      DivExact(200 * part + whole, 2 * whole, 100, whole);
    }
  }

  lemma {:induction false} MulMonotone(b: nat, x: nat, y: nat)
    requires x <= y
    ensures b * x <= b * y
    decreases y - x
  {
    if x < y {
      MulMonotone(b, x, y - 1);
      assert b * y == b * (y - 1) + b;
    }
  }

  /** A quotient below `n` when the dividend is below `n` divisors. */
  lemma DivBelow(a: nat, b: nat, n: nat)
    requires b > 0 && a < b * n
    ensures a / b < n
  {
    var q := a / b;
    assert b * q <= a;
    if q >= n {
      MulMonotone(b, n, q);
    }
  }

  /** `(b * q + r) / b == q` for a remainder below `b`. */
  lemma DivExact(a: nat, b: nat, q: nat, r: nat)
    requires b > 0 && r < b && a == b * q + r
    ensures a / b == q
  {
    var d := a / b;
    assert a == b * d + a % b;
    if d < q {
      MulMonotone(b, d + 1, q);
    } else if d > q {
      MulMonotone(b, q + 1, d);
    }
  }

  // ---------------------------------------------------------------- records with ids

  /** `s.filter((x) => x.id !== id)`: delete by id. */
  function WithoutId<T, K(==)>(s: seq<T>, id: K, idOf: T -> K): (r: seq<T>)
    ensures |r| <= |s|
    ensures forall k :: 0 <= k < |r| ==> idOf(r[k]) != id && r[k] in s
    ensures forall k :: 0 <= k < |s| && idOf(s[k]) != id ==> s[k] in r
    ensures (forall k :: 0 <= k < |s| ==> idOf(s[k]) != id) ==> r == s
  {
    var keep := (x: T) => idOf(x) != id;
    assert (forall k :: 0 <= k < |s| ==> idOf(s[k]) != id) ==> Filter(s, keep) == s by {
      if forall k :: 0 <= k < |s| ==> idOf(s[k]) != id {
        FilterAll(s, keep);
      }
    }
    Filter(s, keep)
  }

  /** Deleting keeps the survivors in their order: it distributes over concatenation. */
  lemma WithoutIdAppend<T, K>(a: seq<T>, b: seq<T>, id: K, idOf: T -> K)
    ensures WithoutId(a + b, id, idOf) == WithoutId(a, id, idOf) + WithoutId(b, id, idOf)
  {
    FilterAppend(a, b, (x: T) => idOf(x) != id);
  }

  /** Deleting a record just put in front under a fresh id gives back the list it was put on. */
  lemma WithoutFreshHead<T, K>(x: T, s: seq<T>, idOf: T -> K)
    requires forall k :: 0 <= k < |s| ==> idOf(s[k]) != idOf(x)
    ensures WithoutId([x] + s, idOf(x), idOf) == s
  {
    WithoutIdAppend([x], s, idOf(x), idOf);
    assert WithoutId([x], idOf(x), idOf) == [];
  }

  /** `s.map((x) => (x.id === id ? f(x) : x))`: update the records with that id. */
  function UpdateId<T, K(==)>(s: seq<T>, id: K, idOf: T -> K, f: T -> T): (r: seq<T>)
    ensures |r| == |s|
    ensures forall k :: 0 <= k < |s| ==> r[k] == if idOf(s[k]) == id then f(s[k]) else s[k]
  {
    MapWhere(s, (x: T) => idOf(x) == id, f)
  }

  /** An update that keeps the id and undoes itself, applied twice, changes nothing. */
  lemma UpdateIdTwice<T, K>(s: seq<T>, id: K, idOf: T -> K, f: T -> T)
    requires forall x :: idOf(f(x)) == idOf(x) && f(f(x)) == x
    ensures UpdateId(UpdateId(s, id, idOf, f), id, idOf, f) == s
  {
    var once := UpdateId(s, id, idOf, f);
    var twice := UpdateId(once, id, idOf, f);
    forall k | 0 <= k < |s| ensures twice[k] == s[k] {
      if idOf(s[k]) == id {
        assert once[k] == f(s[k]);
      }
    }
  }
}
