/** Sums over finite maps: the exposure a tracker derives from its dictionaries. */
module Sums {

  datatype Option<+T> = None | Some(value: T)

  function Min(a: real, b: real): real { if a <= b then a else b }

  function Max(a: real, b: real): real { if a >= b then a else b }

  function Abs(x: real): real { if x < 0.0 then -x else x }

  function Clamp(m: real): real { Max(0.0, Min(1.0, m)) }

  /** Scaling by a positive factor keeps order; the products are passed by name. */
  lemma Scaled(x: real, y: real, s: real, xs: real, ys: real)
    requires xs == x * s && ys == y * s && s > 0.0
    ensures x < y <==> xs < ys
    ensures x <= y <==> xs <= ys
  {
    assert ys - xs == (y - x) * s;
  }

  lemma ScaledSum(x: real, y: real, s: real, xs: real, ys: real, sum: real)
    requires xs == x * s && ys == y * s && sum == (x + y) * s
    ensures sum == xs + ys
  {
  }

  ghost function Sum<K>(m: map<K, real>): real
  {
    if m == map[] then 0.0 else var k :| k in m; m[k] + Sum(m - {k})
  }

  /** The sum does not depend on the key taken out first. */
  lemma {:induction false} SumSplit<K>(m: map<K, real>, k: K)
    requires k in m
    ensures Sum(m) == m[k] + Sum(m - {k})
    decreases |m|
  {
    var j :| j in m && Sum(m) == m[j] + Sum(m - {j});
    if j != k {
      SumSplit(m - {j}, k);
      SumSplit(m - {k}, j);
      assert m - {j} - {k} == m - {k} - {j};
    }
  }

  lemma SumPut<K>(m: map<K, real>, k: K, v: real)
    ensures k !in m ==> Sum(m[k := v]) == Sum(m) + v
    ensures k in m ==> Sum(m[k := v]) == Sum(m) - m[k] + v
  {
    SumSplit(m[k := v], k);
    assert m[k := v] - {k} == m - {k};
    if k in m {
      SumSplit(m, k);
    } else {
      assert m - {k} == m;
    }
  }

  lemma {:induction false} SumDrop<K>(m: map<K, real>, k: K)
    ensures Sum(m - {k}) == if k in m then Sum(m) - m[k] else Sum(m)
  {
    if k in m {
      SumSplit(m, k);
    } else {
      assert m - {k} == m;
    }
  }

  /** n times the bound, by addition. */
  ghost function Times(n: nat, bound: real): real
  {
    if n == 0 then 0.0 else Times(n - 1, bound) + bound
  }

  lemma {:induction false} TimesIsProduct(n: nat, bound: real)
    ensures Times(n, bound) == n as real * bound
  {
    if n > 0 {
      TimesIsProduct(n - 1, bound);
      var x := (n - 1) as real;
      assert n as real == x + 1.0;
      assert (x + 1.0) * bound == x * bound + bound;
    }
  }

  lemma {:induction false} TimesAdds(n: nat, m: nat, bound: real)
    ensures Times(n + m, bound) == Times(n, bound) + Times(m, bound)
  {
    if m > 0 {
      TimesAdds(n, m - 1, bound);
    }
  }

  lemma {:induction false} TimesGrows(n: nat, m: nat, bound: real)
    requires n <= m && bound >= 0.0
    ensures Times(n, bound) <= Times(m, bound)
    decreases m
  {
    if n < m {
      TimesGrows(n, m - 1, bound);
    }
  }

  /** A sum of bounded parts is bounded by their number times the bound. */
  lemma {:induction false} SumAtMost<K>(m: map<K, real>, bound: real)
    requires forall k :: k in m ==> m[k] <= bound
    ensures Sum(m) <= Times(|m|, bound)
    decreases |m|
  {
    if m != map[] {
      var k :| k in m && Sum(m) == m[k] + Sum(m - {k});
      var rest := m - {k};
      SumAtMost(rest, bound);
      assert rest.Keys == m.Keys - {k};
    }
  }

  lemma {:induction false} SumNonNegative<K>(m: map<K, real>)
    requires forall k :: k in m ==> m[k] >= 0.0
    ensures Sum(m) >= 0.0
    decreases |m|
  {
    if m != map[] {
      var k :| k in m && Sum(m) == m[k] + Sum(m - {k});
      SumNonNegative(m - {k});
    }
  }

  ghost function Count<K>(m: map<K, nat>): nat
  {
    if m == map[] then 0 else var k :| k in m; m[k] + Count(m - {k})
  }

  lemma {:induction false} CountSplit<K>(m: map<K, nat>, k: K)
    requires k in m
    ensures Count(m) == m[k] + Count(m - {k})
    decreases |m|
  {
    var j :| j in m && Count(m) == m[j] + Count(m - {j});
    if j != k {
      CountSplit(m - {j}, k);
      CountSplit(m - {k}, j);
      assert m - {j} - {k} == m - {k} - {j};
    }
  }

  lemma CountPut<K>(m: map<K, nat>, k: K, v: nat)
    ensures k !in m ==> Count(m[k := v]) == Count(m) + v
    ensures k in m ==> Count(m[k := v]) == Count(m) - m[k] + v
  {
    CountSplit(m[k := v], k);
    assert m[k := v] - {k} == m - {k};
    if k in m {
      CountSplit(m, k);
    } else {
      assert m - {k} == m;
    }
  }
}

/** How many entries of a finite map satisfy a condition. */
module Tally {

  ghost function Where<K(!new), V(!new)>(m: map<K, V>, q: V -> bool): set<K>
  {
    set k | k in m && q(m[k])
  }

  ghost function HowMany<K(!new), V(!new)>(m: map<K, V>, q: V -> bool): nat { |Where(m, q)| }

  lemma HowManyPut<K(!new), V(!new)>(m: map<K, V>, k: K, v: V, q: V -> bool)
    ensures HowMany(m[k := v], q)
            == HowMany(m, q) - (if k in m && q(m[k]) then 1 else 0) + (if q(v) then 1 else 0)
  {
    var before, after := Where(m, q), Where(m[k := v], q);
    var rest := before - {k};
    assert after == if q(v) then rest + {k} else rest;
  }

  lemma HowManyDrop<K(!new), V(!new)>(m: map<K, V>, k: K, q: V -> bool)
    ensures HowMany(m - {k}, q) == HowMany(m, q) - if k in m && q(m[k]) then 1 else 0
  {
    assert Where(m - {k}, q) == Where(m, q) - {k};
  }

  lemma HowManyWeaker<K(!new), V(!new)>(m: map<K, V>, q: V -> bool, r: V -> bool)
    requires forall v :: q(v) ==> r(v)
    ensures HowMany(m, q) <= HowMany(m, r) <= |m|
  {
    Subset(Where(m, q), Where(m, r));
    Subset(Where(m, r), m.Keys);
  }

  lemma {:induction false} Subset<K>(a: set<K>, b: set<K>)
    requires a <= b
    ensures |a| <= |b|
  {
    if a != {} {
      var x :| x in a;
      Subset(a - {x}, b - {x});
    }
  }
}
