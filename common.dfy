/** Shared vocabulary: optional values, sums, and the floor/ceiling arithmetic the
    scripts use through Math.floor and Math.ceil. */
module Common {

  datatype Option<+T> = None | Some(value: T)

  /** A positive RAM cost: the divisor of every `Math.floor(free / cost)`. */
  type Cost = c: nat | c > 0 witness 1

  function Min(a: int, b: int): int
  {
    if a < b then a else b
  }

  function Max(a: int, b: int): int
  {
    if a < b then b else a
  }

  /** Sum of a sequence of integers, accumulated left to right. */
  function Sum(s: seq<int>): int
  {
    if s == [] then 0 else Sum(s[..|s| - 1]) + s[|s| - 1]
  }

  lemma {:induction false} SumCons(x: int, s: seq<int>)
    ensures Sum([x] + s) == x + Sum(s)
  {
    if s == [] {
      assert [x] + s == [x];
      assert [x][..0] == [];
    } else {
      var t := [x] + s;
      assert t[..|t| - 1] == [x] + s[..|s| - 1];
      SumCons(x, s[..|s| - 1]);
    }
  }

  lemma {:induction false} SumAppend(s: seq<int>, t: seq<int>)
    ensures Sum(s + t) == Sum(s) + Sum(t)
    decreases |t|
  {
    if t == [] {
      assert s + t == s;
    } else {
      assert (s + t)[..|s + t| - 1] == s + t[..|t| - 1];
      SumAppend(s, t[..|t| - 1]);
    }
  }

  /** Number of whole copies of `cost` that fit into `free`: `Math.floor(free / cost)`. */
  function Capacity(free: int, cost: Cost): (t: int)
    ensures t * cost <= free < (t + 1) * cost
    ensures free >= 0 ==> t >= 0
  {
    free / cost
  }

  /** `Math.ceil(x)` on reals. */
  function Ceil(x: real): (c: int)
    ensures c as real - 1.0 < x <= c as real
  {
    -((-x).Floor)
  }

  /** `Math.floor(x)` on reals. */
  function Floor(x: real): (f: int)
    ensures f as real <= x < f as real + 1.0
  {
    x.Floor
  }

  lemma {:induction false} SubsetCardinality<T>(a: set<T>, b: set<T>)
    requires a <= b
    ensures |a| <= |b|
    decreases |a|
  {
    if a != {} {
      var x :| x in a;
      SubsetCardinality(a - {x}, b - {x});
    }
  }

  lemma AppendAssoc<T>(a: seq<T>, b: seq<T>, c: seq<T>)
    ensures a + b + c == a + (b + c)
  {
  }

  /** `x / y` on numbers, None where JavaScript's division yields a non-finite
      number (a zero divisor). */
  function Quotient(x: real, y: real): (q: Option<real>)
    ensures q.Some? <==> y != 0.0
    ensures q.Some? ==> q.value * y == x
  {
    if y == 0.0 then None else Some(x / y)
  }

  // ----- Sets and sequences shared by the discovery walks -----

  ghost function Elems<T>(s: seq<T>): set<T>
  {
    set x | x in s
  }

  /** `b` is `a` with elements appended. */
  ghost predicate Extends<T>(a: seq<T>, b: seq<T>)
  {
    |a| <= |b| && b[..|a|] == a
  }

  lemma ExtendsTransitive<T>(a: seq<T>, b: seq<T>, c: seq<T>)
    requires Extends(a, b) && Extends(b, c)
    ensures Extends(a, c)
  {
    assert c[..|a|] == c[..|b|][..|a|];
  }

  /** Learning a new key `x` shrinks the set of keys still unknown: the measure
      of every discovery walk. */
  lemma UnknownShrinks<T>(keys: set<T>, before: set<T>, after: set<T>, x: T)
    requires before + {x} <= after && x in keys && x !in before
    ensures |keys - after| < |keys - before|
  {
    SubsetCardinality(keys - after, (keys - before) - {x});
  }

  lemma UnknownNoLarger<T>(keys: set<T>, before: set<T>, after: set<T>)
    requires before <= after
    ensures |keys - after| <= |keys - before|
  {
    SubsetCardinality(keys - after, keys - before);
  }

  /** `UnknownShrinks` for a list that grows by one new element. */
  lemma UnknownAppend<T>(keys: set<T>, s: seq<T>, x: T)
    requires x in keys && x !in s
    ensures |keys - Elems(s + [x])| < |keys - Elems(s)|
  {
    assert Elems(s + [x]) == Elems(s) + {x};
    UnknownShrinks(keys, Elems(s), Elems(s + [x]), x);
  }
}
