/** Small vocabulary shared by the models: options, filtered sequences, order relations. */
module Prelude {

  datatype Option<+T> = None | Some(value: T)

  function Min(a: int, b: int): int {
    if a <= b then a else b
  }

  function Max(a: int, b: int): int {
    if a >= b then a else b
  }

  /** The elements of `s` that satisfy `keep`, in order. */
  function Filter<T>(s: seq<T>, keep: T -> bool): (r: seq<T>)
    ensures |r| <= |s|
  {
    if s == [] then [] else (if keep(s[0]) then [s[0]] else []) + Filter(s[1..], keep)
  }

  lemma {:induction false} FilterAppend<T>(a: seq<T>, b: seq<T>, keep: T -> bool)
    ensures Filter(a + b, keep) == Filter(a, keep) + Filter(b, keep)
  {
    if a == [] {
      assert a + b == b;
    } else {
      var head := if keep(a[0]) then [a[0]] else [];
      assert (a + b)[0] == a[0] && (a + b)[1..] == a[1..] + b;
      calc {
        Filter(a + b, keep);
        head + Filter(a[1..] + b, keep);
        { FilterAppend(a[1..], b, keep); }
        head + (Filter(a[1..], keep) + Filter(b, keep));
        Filter(a, keep) + Filter(b, keep);
      }
    }
  }

  lemma FilterOne<T>(s: seq<T>, x: T, keep: T -> bool)
    ensures Filter(s + [x], keep) == if keep(x) then Filter(s, keep) + [x] else Filter(s, keep)
  {
    FilterAppend(s, [x], keep);
    assert [x][1..] == [];
  }

  lemma {:induction false} FilterMember<T>(s: seq<T>, keep: T -> bool, x: T)
    ensures x in Filter(s, keep) <==> x in s && keep(x)
  {
    if s != [] {
      FilterMember(s[1..], keep, x);
    }
  }

  lemma {:induction false} FilterAll<T>(s: seq<T>, keep: T -> bool)
    requires forall x :: x in s ==> keep(x)
    ensures Filter(s, keep) == s
  {
    if s != [] {
      FilterAll(s[1..], keep);
    }
  }

  lemma {:induction false} FilterNone<T>(s: seq<T>, keep: T -> bool)
    requires forall x :: x in s ==> !keep(x)
    ensures Filter(s, keep) == []
  {
    if s != [] {
      FilterNone(s[1..], keep);
    }
  }

  lemma {:induction false} FilterTwice<T>(s: seq<T>, p: T -> bool, q: T -> bool, both: T -> bool)
    requires forall x :: x in s ==> (both(x) <==> p(x) && q(x))
    ensures Filter(Filter(s, p), q) == Filter(s, both)
  {
    if s != [] {
      var rest := Filter(s[1..], p);
      FilterTwice(s[1..], p, q, both);
      assert s[0] in s;
      if p(s[0]) {
        assert ([s[0]] + rest)[0] == s[0] && ([s[0]] + rest)[1..] == rest;
      } else {
        assert [] + rest == rest && [] + Filter(s[1..], both) == Filter(s[1..], both);
      }
    }
  }

  lemma {:induction false} FilterSame<T>(s: seq<T>, p: T -> bool, q: T -> bool)
    requires forall x :: x in s ==> (p(x) <==> q(x))
    ensures Filter(s, p) == Filter(s, q)
  {
    if s != [] {
      FilterSame(s[1..], p, q);
    }
  }

  lemma {:induction false} FilterShorter<T>(s: seq<T>, p: T -> bool, q: T -> bool)
    requires forall x :: x in s && p(x) ==> q(x)
    ensures |Filter(s, p)| <= |Filter(s, q)|
    ensures |Filter(s, p)| == |Filter(s, q)| <==> forall x :: x in s && q(x) ==> p(x)
  {
    if s != [] {
      FilterShorter(s[1..], p, q);
    }
  }

  /** Neighbours at least `gap` apart. */
  predicate Spaced(s: seq<int>, gap: int) {
    forall i :: 0 < i < |s| ==> s[i] - s[i - 1] >= gap
  }

  /** Every pair of elements, not just neighbours, is as far apart as their distance in the list allows. */
  lemma {:induction false} SpacedApart(s: seq<int>, gap: nat, i: nat, j: nat)
    requires Spaced(s, gap) && i <= j < |s|
    ensures s[j] - s[i] >= (j - i) * gap
    decreases j
  {
    if i < j {
      SpacedApart(s, gap, i, j - 1);
      assert (j - i) * gap == (j - 1 - i) * gap + gap;
    }
  }

  /** The elements of `sub` are those of `full` at the increasing positions `at`. */
  predicate Picks<T(==)>(sub: seq<T>, full: seq<T>, at: seq<nat>) {
    && |at| == |sub|
    && (forall i, j :: 0 <= i < j < |at| ==> at[i] < at[j])
    && (forall i :: 0 <= i < |at| ==> at[i] < |full| && full[at[i]] == sub[i])
  }

  /** `sub` can be obtained from `full` by deleting elements. */
  ghost predicate Subsequence<T>(sub: seq<T>, full: seq<T>) {
    exists at: seq<nat> :: Picks(sub, full, at)
  }

  lemma SubsequenceExtend<T>(sub: seq<T>, full: seq<T>, x: T)
    requires Subsequence(sub, full)
    ensures Subsequence(sub + [x], full + [x])
  {
    var at: seq<nat> :| Picks(sub, full, at);
    assert Picks(sub + [x], full + [x], at + [|full|]);
  }

  lemma SubsequenceDrop<T>(sub: seq<T>, full: seq<T>, i: nat, j: nat)
    requires Subsequence(sub, full) && i <= j <= |sub|
    ensures Subsequence(sub[..i] + sub[j..], full)
  {
    var at: seq<nat> :| Picks(sub, full, at);
    assert Picks(sub[..i] + sub[j..], full, at[..i] + at[j..]);
  }

  lemma MulOrder(a: int, b: int, d: nat)
    requires a <= b
    ensures a * d <= b * d
  {
  }

  function Pow2(n: nat): (p: nat)
    ensures p > 0
  {
    if n == 0 then 1 else 2 * Pow2(n - 1)
  }

  /** n pieces of length d fit into `total` only if n is at most the quotient. */
  lemma DivideBound(n: nat, d: nat, total: nat)
    requires d > 0 && n * d <= total
    ensures n <= total / d
  {
    var q := total / d;
    assert total == q * d + total % d;
    assert (q + 1) * d == q * d + d;
    MulOrder(q + 1, Max(q + 1, n), d);
  }

  // ----- counting

  /** How many elements of `s` satisfy `holds`. */
  function Count<T>(s: seq<T>, holds: T -> bool): (n: nat)
    ensures n <= |s|
  {
    if s == [] then 0 else (if holds(s[0]) then 1 else 0) + Count(s[1..], holds)
  }

  lemma {:induction false} CountAppend<T>(a: seq<T>, b: seq<T>, holds: T -> bool)
    ensures Count(a + b, holds) == Count(a, holds) + Count(b, holds)
  {
    if a == [] {
      assert a + b == b;
    } else {
      assert (a + b)[0] == a[0] && (a + b)[1..] == a[1..] + b;
      CountAppend(a[1..], b, holds);
    }
  }

  lemma CountOne<T>(s: seq<T>, x: T, holds: T -> bool)
    ensures Count(s + [x], holds) == Count(s, holds) + if holds(x) then 1 else 0
  {
    CountAppend(s, [x], holds);
    assert [x][1..] == [];
  }

  lemma {:induction false} CountRemove<T>(s: seq<T>, i: nat, holds: T -> bool)
    requires i < |s|
    ensures Count(s, holds) == Count(s[..i] + s[i + 1..], holds) + if holds(s[i]) then 1 else 0
  {
    assert s == (s[..i] + [s[i]]) + s[i + 1..];
    CountAppend(s[..i] + [s[i]], s[i + 1..], holds);
    CountOne(s[..i], s[i], holds);
    CountAppend(s[..i], s[i + 1..], holds);
  }

  lemma {:induction false} CountPermuted<T>(a: seq<T>, b: seq<T>, holds: T -> bool)
    requires multiset(a) == multiset(b)
    ensures Count(a, holds) == Count(b, holds)
  {
    if a == [] {
      assert |multiset(b)| == 0;
    } else {
      assert a == [a[0]] + a[1..];
      assert a[0] in multiset(b);
      var i :| 0 <= i < |b| && b[i] == a[0];
      assert b == b[..i] + [b[i]] + b[i + 1..];
      assert multiset(a[1..]) == multiset(a) - multiset{a[0]};
      assert multiset(b[..i] + b[i + 1..]) == multiset(b) - multiset{a[0]};
      CountPermuted(a[1..], b[..i] + b[i + 1..], holds);
      CountRemove(b, i, holds);
    }
  }

  lemma {:induction false} CountFilter<T>(s: seq<T>, keep: T -> bool, holds: T -> bool)
    ensures Count(Filter(s, keep), holds) <= Count(s, holds)
  {
    if s != [] {
      CountFilter(s[1..], keep, holds);
      if keep(s[0]) {
        CountAppend([s[0]], Filter(s[1..], keep), holds);
        assert [s[0]][1..] == [];
      } else {
        assert [] + Filter(s[1..], keep) == Filter(s[1..], keep);
      }
    }
  }

  lemma {:induction false} CountPositive<T>(s: seq<T>, holds: T -> bool)
    ensures Count(s, holds) > 0 <==> exists x :: x in s && holds(x)
  {
    if s != [] {
      CountPositive(s[1..], holds);
    }
  }
}
