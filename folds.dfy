/** Order-free folds over the dicts the engine iterates: sums, running minima and
    maxima, Python's math.ceil, and "apply to every entry, fail if one fails". */
module Folds {
  import opened Outcomes

  function Min(a: real, b: real): real { if a <= b then a else b }
  function Max(a: real, b: real): real { if a >= b then a else b }

  /** math.ceil on a real: the least integer not below x. */
  function Ceil(x: real): (n: int)
    ensures x <= n as real < x + 1.0
  {
    -((-x).Floor)
  }

  // ---------------------------------------------------------------- sums

  /** The sum of a dict's values (Python's sum() over .values()). */
  ghost function Sum(m: map<string, real>): real
    decreases m.Keys
  {
    if m == map[] then 0.0
    else
      var k :| k in m;
      m[k] + Sum(m - {k})
  }

  /** The sum does not depend on which key is taken out first. */
  lemma {:induction false} SumRemove(m: map<string, real>, k: string)
    requires k in m
    ensures Sum(m) == m[k] + Sum(m - {k})
    decreases m.Keys
  {
    var j :| j in m && Sum(m) == m[j] + Sum(m - {j});
    if j != k {
      SumRemove(m - {j}, k);
      SumRemove(m - {k}, j);
      assert (m - {j}) - {k} == (m - {k}) - {j};
    }
  }

  lemma SumAdd(m: map<string, real>, k: string, v: real)
    requires k !in m
    ensures Sum(m[k := v]) == Sum(m) + v
  {
    SumRemove(m[k := v], k);
    assert m[k := v] - {k} == m;
  }

  /** A sum of non-negative values is non-negative. */
  lemma {:induction false} SumNonNegative(m: map<string, real>)
    requires forall k :: k in m ==> m[k] >= 0.0
    ensures Sum(m) >= 0.0
    decreases m.Keys
  {
    if m != map[] {
      var k :| k in m;
      SumRemove(m, k);
      SumNonNegative(m - {k});
    }
  }

  // ------------------------------------------------- running minimum and maximum

  /** min(init, every value of m): the result of `r = init; for v: r = min(r, v)`. */
  ghost function MinFrom(init: real, m: map<string, real>): real
    decreases m.Keys
  {
    if m == map[] then init
    else
      var k :| k in m;
      Min(m[k], MinFrom(init, m - {k}))
  }

  ghost predicate IsMinFrom(r: real, init: real, m: map<string, real>) {
    r <= init && (forall k :: k in m ==> r <= m[k]) &&
    (r == init || exists k :: k in m && r == m[k])
  }

  lemma {:induction false} MinFromIsMin(init: real, m: map<string, real>)
    ensures IsMinFrom(MinFrom(init, m), init, m)
    decreases m.Keys
  {
    if m != map[] {
      var k :| k in m && MinFrom(init, m) == Min(m[k], MinFrom(init, m - {k}));
      MinFromIsMin(init, m - {k});
      var rest := MinFrom(init, m - {k});
      assert Min(m[k], rest) <= rest;
      assert MinFrom(init, m) == Min(m[k], rest);
      forall j | j in m ensures MinFrom(init, m) <= m[j] {
        if j != k { assert j in m - {k}; }
      }
    }
  }

  lemma MinFromUnique(r: real, s: real, init: real, m: map<string, real>)
    requires IsMinFrom(r, init, m) && IsMinFrom(s, init, m)
    ensures r == s
  {
    if r != init { var k :| k in m && r == m[k]; }
    if s != init { var k :| k in m && s == m[k]; }
  }

  /** Folding one more entry into a running minimum. */
  lemma MinFromAdd(init: real, m: map<string, real>, k: string, v: real)
    requires k !in m
    ensures MinFrom(init, m[k := v]) == Min(MinFrom(init, m), v)
  {
    var before := MinFrom(init, m);
    MinFromIsMin(init, m);
    MinFromIsMin(init, m[k := v]);
    var cand := Min(before, v);
    assert IsMinFrom(cand, init, m[k := v]) by {
      assert cand <= before && cand <= v;
      assert cand == before || cand == v;
      forall j | j in m ensures cand <= m[j] { }
      if cand != init && cand != v {
        var j :| j in m && before == m[j];
        assert j in m[k := v] && m[k := v][j] == cand;
      }
      if cand == v {
        assert k in m[k := v] && m[k := v][k] == cand;
      }
    }
    MinFromUnique(MinFrom(init, m[k := v]), cand, init, m[k := v]);
  }

  /** max(init, every value of m): the result of `r = init; for v: r = max(r, v)`. */
  ghost function MaxFrom(init: real, m: map<string, real>): real
    decreases m.Keys
  {
    if m == map[] then init
    else
      var k :| k in m;
      Max(m[k], MaxFrom(init, m - {k}))
  }

  ghost predicate IsMaxFrom(r: real, init: real, m: map<string, real>) {
    r >= init && (forall k :: k in m ==> r >= m[k]) &&
    (r == init || exists k :: k in m && r == m[k])
  }

  lemma {:induction false} MaxFromIsMax(init: real, m: map<string, real>)
    ensures IsMaxFrom(MaxFrom(init, m), init, m)
    decreases m.Keys
  {
    if m != map[] {
      var k :| k in m && MaxFrom(init, m) == Max(m[k], MaxFrom(init, m - {k}));
      MaxFromIsMax(init, m - {k});
      var rest := MaxFrom(init, m - {k});
      assert Max(m[k], rest) >= rest;
      assert MaxFrom(init, m) == Max(m[k], rest);
      forall j | j in m ensures MaxFrom(init, m) >= m[j] {
        if j != k { assert j in m - {k}; }
      }
    }
  }

  lemma MaxFromUnique(r: real, s: real, init: real, m: map<string, real>)
    requires IsMaxFrom(r, init, m) && IsMaxFrom(s, init, m)
    ensures r == s
  {
    if r != init { var k :| k in m && r == m[k]; }
    if s != init { var k :| k in m && s == m[k]; }
  }

  /** Folding one more entry into a running maximum. */
  lemma MaxFromAdd(init: real, m: map<string, real>, k: string, v: real)
    requires k !in m
    ensures MaxFrom(init, m[k := v]) == Max(MaxFrom(init, m), v)
  {
    var before := MaxFrom(init, m);
    MaxFromIsMax(init, m);
    MaxFromIsMax(init, m[k := v]);
    var cand := Max(before, v);
    assert IsMaxFrom(cand, init, m[k := v]) by {
      assert cand >= before && cand >= v;
      assert cand == before || cand == v;
      forall j | j in m ensures cand >= m[j] { }
      if cand != init && cand != v {
        var j :| j in m && before == m[j];
        assert j in m[k := v] && m[k := v][j] == cand;
      }
      if cand == v {
        assert k in m[k := v] && m[k := v][k] == cand;
      }
    }
    MaxFromUnique(MaxFrom(init, m[k := v]), cand, init, m[k := v]);
  }

  // ------------------------------------------- apply to every entry of a dict

  ghost predicate AllOk<V, W>(m: map<string, V>, f: (string, V) -> Result<W>) {
    forall k :: k in m ==> f(k, m[k]).Ok?
  }

  /** `{k: f(k, v) for k, v in m.items()}`, failing as soon as one entry fails. */
  ghost function TraverseSpec<V, W>(m: map<string, V>, f: (string, V) -> Result<W>): Result<map<string, W>> {
    if AllOk(m, f) then Ok(map k | k in m :: f(k, m[k]).value)
    else
      var k :| k in m && f(k, m[k]).Err?;
      Err(f(k, m[k]).error)
  }

  lemma TraverseSpecOk<V, W>(m: map<string, V>, f: (string, V) -> Result<W>)
    requires AllOk(m, f)
    ensures TraverseSpec(m, f).Ok? && TraverseSpec(m, f).value.Keys == m.Keys
    ensures forall k :: k in m ==> f(k, m[k]) == Ok(TraverseSpec(m, f).value[k])
  {
  }

  lemma TraverseSpecErr<V, W>(m: map<string, V>, f: (string, V) -> Result<W>, k: string)
    requires k in m && f(k, m[k]).Err?
    ensures TraverseSpec(m, f).Err?
  {
  }

  /** The dict loop itself, taking the entries in an unspecified order. */
  method Traverse<V, W(==)>(m: map<string, V>, f: (string, V) -> Result<W>) returns (r: Result<map<string, W>>)
    ensures Agrees(r, TraverseSpec(m, f))
    ensures r.Ok? ==> r.value.Keys == m.Keys && forall k :: k in m ==> f(k, m[k]) == Ok(r.value[k])
    ensures r.Err? ==> exists k :: k in m && f(k, m[k]) == Err(r.error)
  {
    var rest := m.Keys;
    var acc: map<string, W> := map[];
    while rest != {}
      invariant rest <= m.Keys
      invariant acc.Keys == m.Keys - rest
      invariant forall k :: k in acc ==> f(k, m[k]) == Ok(acc[k])
      decreases rest
    {
      var k :| k in rest;
      var x := f(k, m[k]);
      if x.Err? {
        return Err(x.error);
      }
      acc := acc[k := x.value];
      rest := rest - {k};
    }
    assert acc == map k | k in m :: f(k, m[k]).value;
    r := Ok(acc);
  }
}
