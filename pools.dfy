/** The dict loops the processes run over pools of resources: running minima
    and maxima of mass ratios, total mass, and splitting a pool by a predicate. */
module Pools {
  import opened Outcomes
  import opened Folds
  import opened Resources

  /** `mass / per`, the fraction of `per` a mass amounts to. */
  function Ratio(mass: real, per: real): real
    requires per != 0.0
  {
    mass / per
  }

  predicate NonZero(per: map<string, real>) {
    forall k :: k in per ==> per[k] != 0.0
  }

  /** `{name: pool[name].Mass / per[name]}` over the names both dicts have. */
  function Ratios(pool: Pool, per: map<string, real>): (q: map<string, real>)
    requires NonZero(per)
    ensures q.Keys == pool.Keys * per.Keys
  {
    map k | k in pool.Keys * per.Keys :: Ratio(pool[k].mass, per[k])
  }

  /** A shared name's ratio is its mass over its entry in `per`. */
  lemma RatioAt(pool: Pool, per: map<string, real>, k: string)
    requires NonZero(per) && k in pool && k in per
    ensures k in Ratios(pool, per) && Ratios(pool, per)[k] == Ratio(pool[k].mass, per[k])
  {
  }

  /** Each resource's mass. */
  function MassesOf(pool: Pool): (m: map<string, real>)
    ensures m.Keys == pool.Keys
  {
    map k | k in pool :: pool[k].mass
  }

  /** `sum(r.Mass for r in pool.values())`. */
  ghost function TotalMass(pool: Pool): real {
    Sum(MassesOf(pool))
  }

  /** `r = init; for name, res in pool.items(): r = max(r, res.Mass / per[name])`,
      which raises KeyError on a name `per` lacks. */
  method MaxRatio(init: real, pool: Pool, per: map<string, real>) returns (r: Result<real>)
    requires NonZero(per)
    ensures pool.Keys <= per.Keys ==> r == Ok(MaxFrom(init, Ratios(pool, per)))
    ensures !(pool.Keys <= per.Keys) ==> r == Err(MissingKey)
  {
    var acc := init;
    var rest := pool.Keys;
    ghost var seen: map<string, real> := map[];
    while rest != {}
      invariant rest <= pool.Keys && seen.Keys == pool.Keys - rest && seen.Keys <= per.Keys
      invariant forall k :: k in seen ==> seen[k] == Ratio(pool[k].mass, per[k])
      invariant acc == MaxFrom(init, seen)
      decreases rest
    {
      var k :| k in rest;
      if k !in per {
        return Err(MissingKey);
      }
      MaxFromAdd(init, seen, k, Ratio(pool[k].mass, per[k]));
      seen := seen[k := Ratio(pool[k].mass, per[k])];
      acc := Max(acc, pool[k].mass / per[k]);
      rest := rest - {k};
    }
    assert seen == Ratios(pool, per);
    r := Ok(acc);
  }

  /** `r = init; for name, res in pool.items(): r = min(r, res.Mass / per[name])`
      over a pool whose every name `per` has. */
  method MinRatio(init: real, pool: Pool, per: map<string, real>) returns (r: real)
    requires NonZero(per) && pool.Keys <= per.Keys
    ensures r == MinFrom(init, Ratios(pool, per))
  {
    r := init;
    var rest := pool.Keys;
    ghost var seen: map<string, real> := map[];
    while rest != {}
      invariant rest <= pool.Keys && seen.Keys == pool.Keys - rest
      invariant forall k :: k in seen ==> seen[k] == Ratio(pool[k].mass, per[k])
      invariant r == MinFrom(init, seen)
      decreases rest
    {
      var k :| k in rest;
      MinFromAdd(init, seen, k, Ratio(pool[k].mass, per[k]));
      seen := seen[k := Ratio(pool[k].mass, per[k])];
      r := Min(r, pool[k].mass / per[k]);
      rest := rest - {k};
    }
    assert seen == Ratios(pool, per);
  }

  /** The running sum of a dict's values. */
  method AddUp(m: map<string, real>) returns (total: real)
    ensures total == Sum(m)
  {
    total := 0.0;
    var rest := m.Keys;
    ghost var seen: map<string, real> := map[];
    while rest != {}
      invariant rest <= m.Keys && seen.Keys == m.Keys - rest
      invariant forall k :: k in seen ==> seen[k] == m[k]
      invariant total == Sum(seen)
      decreases rest
    {
      var k :| k in rest;
      SumAdd(seen, k, m[k]);
      seen := seen[k := m[k]];
      total := total + m[k];
      rest := rest - {k};
    }
    assert seen == m;
  }

  /** The entries an operation kept, with the dropped ones (None) removed. */
  function Survivors(m: map<string, Option<ResourceState>>): (p: Pool)
    ensures p.Keys == set k | k in m && m[k].Some?
    ensures forall k :: k in p ==> m[k] == Some(p[k])
  {
    map k | k in m && m[k].Some? :: m[k].value
  }

  /** The entries of a pool whose names are in `keys`. */
  function Restrict(pool: Pool, keys: set<string>): (p: Pool)
    ensures p.Keys == pool.Keys * keys
    ensures forall k :: k in p ==> p[k] == pool[k]
  {
    map k | k in pool && k in keys :: pool[k]
  }

  /** Restricting to a superset of the names changes nothing. */
  lemma RestrictAll(pool: Pool, keys: set<string>)
    requires pool.Keys <= keys
    ensures Restrict(pool, keys) == pool
  {
  }

  /** Move the entries named in `keys` out of a pool, one at a time: the loop
      that collects them into a new dict and then deletes each from the old one. */
  method Partition(pool: Pool, keys: set<string>) returns (taken: Pool, kept: Pool)
    ensures taken == Restrict(pool, keys)
    ensures kept == pool - keys
    ensures taken.Keys !! kept.Keys && taken + kept == pool
  {
    taken := map[];
    kept := pool;
    var rest := pool.Keys;
    while rest != {}
      invariant rest <= pool.Keys && kept.Keys <= pool.Keys && taken.Keys <= pool.Keys
      invariant forall k :: k in pool ==> (k in taken <==> k !in rest && k in keys)
      invariant forall k :: k in pool ==> (k in kept <==> !(k in taken))
      invariant forall k :: k in taken ==> taken[k] == pool[k]
      invariant forall k :: k in kept ==> kept[k] == pool[k]
      decreases rest
    {
      var k :| k in rest;
      if k in keys {
        taken := taken[k := pool[k]];
        kept := kept - {k};
      }
      rest := rest - {k};
    }
  }
}
