/** Totals over a commutative monoid: the order and the grouping of the terms do not matter. */
module Totals {

  datatype Monoid<!M(!new)> = Monoid(op: (M, M) -> M, unit: M) {
    ghost predicate Lawful() {
      && (forall x :: op(unit, x) == x)
      && (forall x, y :: op(x, y) == op(y, x))
      && (forall x, y, z :: op(op(x, y), z) == op(x, op(y, z)))
    }
  }

  function Total<T, M(!new)>(xs: seq<T>, measure: T -> M, m: Monoid<M>): M {
    if xs == [] then m.unit else m.op(measure(xs[0]), Total(xs[1..], measure, m))
  }

  lemma {:induction false} TotalOfConcat<T, M(!new)>(a: seq<T>, b: seq<T>, measure: T -> M, m: Monoid<M>)
    requires m.Lawful()
    ensures Total(a + b, measure, m) == m.op(Total(a, measure, m), Total(b, measure, m))
  {
    if a == [] {
      assert a + b == b;
    } else {
      assert (a + b)[1..] == a[1..] + b;
      TotalOfConcat(a[1..], b, measure, m);
    }
  }

  lemma TotalWithout<T, M(!new)>(xs: seq<T>, i: nat, measure: T -> M, m: Monoid<M>)
    requires m.Lawful() && i < |xs|
    ensures Total(xs, measure, m) == m.op(measure(xs[i]), Total(xs[..i] + xs[i + 1..], measure, m))
  {
    var before, x, after := xs[..i], xs[i], xs[i + 1..];
    assert xs == before + ([x] + after);
    TotalOfConcat(before, [x] + after, measure, m);
    TotalOfConcat(before, after, measure, m);
    assert ([x] + after)[1..] == after;
    var b, v, a := Total(before, measure, m), measure(x), Total(after, measure, m);
    assert m.op(b, m.op(v, a)) == m.op(m.op(b, v), a);
    assert m.op(m.op(v, b), a) == m.op(v, m.op(b, a));
  }

  /** A total depends only on which terms occur and how often. */
  lemma {:induction false} TotalOfPermutation<T, M(!new)>(a: seq<T>, b: seq<T>, measure: T -> M, m: Monoid<M>)
    requires m.Lawful() && multiset(a) == multiset(b)
    ensures Total(a, measure, m) == Total(b, measure, m)
  {
    if a == [] {
      assert |multiset(b)| == 0;
    } else {
      assert a[0] in multiset(b);
      var i :| 0 <= i < |b| && b[i] == a[0];
      var rest := b[..i] + b[i + 1..];
      assert b == b[..i] + [b[i]] + b[i + 1..];
      assert a == [a[0]] + a[1..];
      assert multiset(a[1..]) == multiset(a) - multiset{a[0]};
      assert multiset(rest) == multiset(b) - multiset{b[i]};
      TotalOfPermutation(a[1..], rest, measure, m);
      TotalWithout(b, i, measure, m);
    }
  }

  function Gather<G, T>(groups: seq<G>, members: G -> seq<T>): seq<T> {
    if groups == [] then [] else members(groups[0]) + Gather(groups[1..], members)
  }

  lemma {:induction false} GatherConcat<G, T>(a: seq<G>, b: seq<G>, members: G -> seq<T>)
    ensures Gather(a + b, members) == Gather(a, members) + Gather(b, members)
  {
    if a == [] {
      assert a + b == b;
    } else {
      assert (a + b)[1..] == a[1..] + b;
      GatherConcat(a[1..], b, members);
    }
  }

  /** Totalling the totals of the groups is totalling all the terms. */
  lemma {:induction false} TotalOfGroups<T, G, M(!new)>(groups: seq<G>, members: G -> seq<T>,
                                                        measure: T -> M, groupMeasure: G -> M, m: Monoid<M>)
    requires m.Lawful()
    requires forall g :: g in groups ==> groupMeasure(g) == Total(members(g), measure, m)
    ensures Total(groups, groupMeasure, m) == Total(Gather(groups, members), measure, m)
  {
    if groups != [] {
      TotalOfGroups(groups[1..], members, measure, groupMeasure, m);
      TotalOfConcat(members(groups[0]), Gather(groups[1..], members), measure, m);
      assert groups[0] in groups;
    }
  }

  // ----- The monoids that occur

  type NonNegative = x: real | 0.0 <= x

  function Max(x: real, y: real): real {
    if x < y then y else x
  }

  function SumOf(values: seq<real>): real {
    if values == [] then 0.0 else values[0] + SumOf(values[1..])
  }

  lemma {:induction false} SumOfLast(values: seq<real>)
    requires values != []
    ensures SumOf(values) == SumOf(values[..|values| - 1]) + values[|values| - 1]
  {
    if |values| > 1 {
      SumOfLast(values[1..]);
      assert values[1..][..|values| - 2] == values[..|values| - 1][1..];
    }
  }

  lemma {:induction false} SumOfUpdate(s: seq<real>, i: nat, x: real)
    requires i < |s|
    ensures SumOf(s[i := x]) == SumOf(s) + x - s[i]
  {
    if i == 0 {
      assert s[i := x][1..] == s[1..];
    } else {
      SumOfUpdate(s[1..], i - 1, x);
      assert s[i := x][1..] == s[1..][i - 1 := x];
    }
  }

  /** A component of a total that the operation adds up is the sum of the components. */
  lemma {:induction false} SumOfField<T, M(!new)>(xs: seq<T>, measure: T -> M, m: Monoid<M>, field: M -> real,
                                           values: seq<real>)
    requires field(m.unit) == 0.0 && forall x, y :: field(m.op(x, y)) == field(x) + field(y)
    requires |values| == |xs| && forall i :: 0 <= i < |xs| ==> values[i] == field(measure(xs[i]))
    ensures field(Total(xs, measure, m)) == SumOf(values)
  {
    if xs != [] {
      SumOfField(xs[1..], measure, m, field, values[1..]);
    }
  }

  function All(): (m: Monoid<bool>)
    ensures m.Lawful()
  {
    Monoid((x: bool, y: bool) => x && y, true)
  }

  function Any(): (m: Monoid<bool>)
    ensures m.Lawful()
  {
    Monoid((x: bool, y: bool) => x || y, false)
  }

  lemma {:induction false} TotalAll<T>(xs: seq<T>, p: T -> bool)
    ensures Total(xs, p, All()) <==> forall x :: x in xs ==> p(x)
  {
    if xs != [] {
      TotalAll(xs[1..], p);
      assert xs == [xs[0]] + xs[1..];
    }
  }

  lemma {:induction false} TotalAny<T>(xs: seq<T>, p: T -> bool)
    ensures Total(xs, p, Any()) <==> exists x :: x in xs && p(x)
  {
    if xs != [] {
      TotalAny(xs[1..], p);
      assert xs == [xs[0]] + xs[1..];
    }
  }

  function Union<T(!new)>(): (m: Monoid<multiset<T>>)
    ensures m.Lawful()
  {
    var m := Monoid((x: multiset<T>, y: multiset<T>) => x + y, multiset{});
    assert m.Lawful() by {
      forall x: multiset<T> ensures m.op(m.unit, x) == x { assert multiset{} + x == x; }
      forall x, y ensures m.op(x, y) == m.op(y, x) { assert x + y == y + x; }
      forall x, y, z ensures m.op(m.op(x, y), z) == m.op(x, m.op(y, z)) { assert (x + y) + z == x + (y + z); }
    }
    m
  }
}
