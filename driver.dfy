/**
  The benchmark driver (`main`): it copies the parameter catalog, builds
  the environment cache from it and registers one family per catalog entry,
  in catalog order. Running the registered benchmarks is not modelled.
*/
module Driver {
  import opened Wrappers
  import opened Decimal
  import opened BenchName
  import opened Params
  import opened EnvCache
  import opened Registrar
  import opened Family

  /** The cases of the families of `catalog`, entry after entry. */
  function AllFamilies(catalog: seq<Entry>, cache: Cache): seq<Case>
    requires Covers(cache, catalog)
    decreases |catalog|
  {
    if catalog == [] then []
    else
      var last := catalog[|catalog| - 1];
      var init := catalog[..|catalog| - 1];
      CoversPrefix(cache, catalog, |catalog| - 1);
      AllFamilies(init, cache) + FamilyCases(last, cache[CkksParams(last)], cache[BfvParams(last)])
  }

  /** The number of cases `register_bm_family` registers for a BFV environment. */
  function FamilyCount(bfv: Env): nat
  {
    22 + (if bfv.usingKeyswitching then 7 else 0) + (if bfv.firstLevelModulusCount > 1 then 2 else 0)
  }

  /** The sum of the family counts of the entries of `catalog`. */
  function TotalCount(catalog: seq<Entry>, cache: Cache): nat
    requires Covers(cache, catalog)
    decreases |catalog|
  {
    if catalog == [] then 0
    else
      var last := catalog[|catalog| - 1];
      var init := catalog[..|catalog| - 1];
      CoversPrefix(cache, catalog, |catalog| - 1);
      TotalCount(init, cache) + FamilyCount(cache[BfvParams(last)])
  }

  /** The copy of the catalog into `bm_parms_vec`, entry by entry. */
  method CopyCatalog(defaults: seq<Entry>) returns (parms: seq<Entry>)
    ensures parms == defaults
  {
    parms := [];
    var i := 0;
    while i < |defaults|
      invariant 0 <= i <= |defaults|
      invariant parms == defaults[..i]
    {
      parms := parms + [defaults[i]];
      i := i + 1;
    }
  }

  /** The registration loop: one family per entry of `catalog`, in catalog order. */
  method RegisterAll(catalog: seq<Entry>, cache: Cache, registry: Registry)
    requires Covers(cache, catalog)
    modifies registry
    ensures registry.cases == old(registry.cases) + AllFamilies(catalog, cache)
  {
    var i := 0;
    while i < |catalog|
      invariant 0 <= i <= |catalog|
      invariant Covers(cache, catalog[..i])
      invariant registry.cases == old(registry.cases) + AllFamilies(catalog[..i], cache)
    {
      RegisterFamily(catalog[i], cache, registry);
      AllFamiliesStep(catalog, cache, i);
      AppendAssoc(old(registry.cases), AllFamilies(catalog[..i], cache),
        FamilyCases(catalog[i], cache[CkksParams(catalog[i])], cache[BfvParams(catalog[i])]));
      i := i + 1;
    }
    assert catalog[..i] == catalog;
  }

  /**
    `main` up to the benchmark run: the cache is built from the catalog and,
    when that succeeds, every entry's family is registered. A repeated
    entry aborts before anything is registered.
  */
  method Run(defaults: seq<Entry>, makeEnv: ParamSet -> Env, registry: Registry) returns (r: Result<Cache, string>)
    modifies registry
    ensures r.Success? <==> Distinct(defaults)
    ensures r.Failure? ==> r.error == DuplicateError && registry.cases == old(registry.cases)
    ensures r.Success? ==> r.value.Keys == DerivedKeys(defaults) && forall k :: k in r.value ==> r.value[k] == makeEnv(k)
    ensures r.Success? ==> Covers(r.value, defaults) && registry.cases == old(registry.cases) + AllFamilies(defaults, r.value)
  {
    var parms := CopyCatalog(defaults);
    r := BuildEnvCache(defaults, makeEnv);
    if r.Failure? {
      return;
    }
    DerivedKeysCover(r.value, defaults);
    RegisterAll(parms, r.value, registry);
  }

  lemma AppendAssoc(a: seq<Case>, b: seq<Case>, c: seq<Case>)
    ensures a + b + c == a + (b + c)
  {
  }

  /** Every prefix of a covered catalog is covered. */
  lemma CoversPrefix(cache: Cache, catalog: seq<Entry>, i: nat)
    requires Covers(cache, catalog) && i <= |catalog|
    ensures Covers(cache, catalog[..i])
  {
    forall e | e in catalog[..i]
      ensures e in catalog
    {
      var k :| 0 <= k < i && catalog[..i][k] == e;
      assert catalog[k] == e;
    }
  }

  /** One more turn of the registration loop appends the family of the next entry. */
  lemma AllFamiliesStep(catalog: seq<Entry>, cache: Cache, i: nat)
    requires Covers(cache, catalog) && i < |catalog|
    ensures Covers(cache, catalog[..i]) && Covers(cache, catalog[..i + 1])
    ensures AllFamilies(catalog[..i + 1], cache)
      == AllFamilies(catalog[..i], cache) + FamilyCases(catalog[i], cache[CkksParams(catalog[i])], cache[BfvParams(catalog[i])])
  {
    CoversPrefix(cache, catalog, i);
    CoversPrefix(cache, catalog, i + 1);
    assert catalog[..i + 1][..i] == catalog[..i];
  }

  /** The number of cases the driver registers is the sum of the family counts, between 22 and 31 per entry. */
  lemma {:induction false} AllFamiliesSize(catalog: seq<Entry>, cache: Cache)
    requires Covers(cache, catalog)
    ensures |AllFamilies(catalog, cache)| == TotalCount(catalog, cache)
    ensures 22 * |catalog| <= |AllFamilies(catalog, cache)| <= 31 * |catalog|
    decreases |catalog|
  {
    if catalog != [] {
      var last := catalog[|catalog| - 1];
      var init := catalog[..|catalog| - 1];
      AllFamiliesSize(init, cache);
      FamilySize(last, cache[CkksParams(last)], cache[BfvParams(last)]);
    }
  }

  predicate DistinctNames(cs: seq<Case>)
  {
    forall i, j :: 0 <= i < j < |cs| ==> cs[i].name != cs[j].name
  }

  /** The `n` and `log_q` every name of an entry's family carries. */
  function Tag(e: Entry, cache: Cache): (int, int)
    requires CkksParams(e) in cache
  {
    (FamilyN(e), FamilyLogQ(cache[CkksParams(e)]))
  }

  lemma DistinctNamesConcat(a: seq<Case>, b: seq<Case>)
    requires DistinctNames(a) && DistinctNames(b)
    requires forall i, j :: 0 <= i < |a| && 0 <= j < |b| ==> a[i].name != b[j].name
    ensures DistinctNames(a + b)
  {
    forall i, j | 0 <= i < j < |a + b|
      ensures (a + b)[i].name != (a + b)[j].name
    {
      if j < |a| {
        assert a[i].name != a[j].name;
      } else if i >= |a| {
        assert b[i - |a|].name != b[j - |a|].name;
      } else {
        assert a[i].name != b[j - |a|].name;
      }
    }
  }

  /** A case registered by the driver belongs to the family of one of the entries. */
  lemma {:induction false} AllFamiliesMembers(catalog: seq<Entry>, cache: Cache, c: Case)
    requires Covers(cache, catalog)
    requires c in AllFamilies(catalog, cache)
    ensures exists k :: 0 <= k < |catalog| && c in FamilyCases(catalog[k], cache[CkksParams(catalog[k])], cache[BfvParams(catalog[k])])
    decreases |catalog|
  {
    var n := |catalog| - 1;
    var init := catalog[..n];
    CoversPrefix(cache, catalog, n);
    if c !in FamilyCases(catalog[n], cache[CkksParams(catalog[n])], cache[BfvParams(catalog[n])]) {
      AllFamiliesMembers(init, cache, c);
      var k :| 0 <= k < |init| && c in FamilyCases(init[k], cache[CkksParams(init[k])], cache[BfvParams(init[k])]);
      assert init[k] == catalog[k];
    }
  }

  /** A family whose tag no earlier entry shares has no name in common with the earlier families. */
  lemma FamiliesApart(init: seq<Entry>, cache: Cache, last: Entry)
    requires Covers(cache, init) && CkksParams(last) in cache && BfvParams(last) in cache
    requires forall k :: 0 <= k < |init| ==> Tag(init[k], cache) != Tag(last, cache)
    ensures forall i, j :: 0 <= i < |AllFamilies(init, cache)| && 0 <= j < |FamilyCases(last, cache[CkksParams(last)], cache[BfvParams(last)])| ==> AllFamilies(init, cache)[i].name != FamilyCases(last, cache[CkksParams(last)], cache[BfvParams(last)])[j].name
  {
    var a := AllFamilies(init, cache);
    var b := FamilyCases(last, cache[CkksParams(last)], cache[BfvParams(last)]);
    forall i, j | 0 <= i < |a| && 0 <= j < |b|
      ensures a[i].name != b[j].name
    {
      AllFamiliesMembers(init, cache, a[i]);
      var k :| 0 <= k < |init| && a[i] in FamilyCases(init[k], cache[CkksParams(init[k])], cache[BfvParams(init[k])]);
      FamilyCaseName(init[k], cache[CkksParams(init[k])], cache[BfvParams(init[k])], a[i]);
      FamilyCaseName(last, cache[CkksParams(last)], cache[BfvParams(last)], b[j]);
    }
  }

  /**
    When no two entries share both `n` and `log_q`, every case the driver
    registers has a name of its own.
  */
  lemma {:induction false} AllNamesDistinct(catalog: seq<Entry>, cache: Cache)
    requires Covers(cache, catalog)
    requires forall i, j :: 0 <= i < j < |catalog| ==> Tag(catalog[i], cache) != Tag(catalog[j], cache)
    ensures DistinctNames(AllFamilies(catalog, cache))
    decreases |catalog|
  {
    if catalog != [] {
      var n := |catalog| - 1;
      var last := catalog[n];
      var init := catalog[..n];
      CoversPrefix(cache, catalog, n);
      assert forall i, j :: 0 <= i < j < |init| ==> Tag(init[i], cache) != Tag(init[j], cache) by {
        forall i, j | 0 <= i < j < |init|
          ensures Tag(init[i], cache) != Tag(init[j], cache)
        {
          assert init[i] == catalog[i] && init[j] == catalog[j];
        }
      }
      AllNamesDistinct(init, cache);
      var a := AllFamilies(init, cache);
      var b := FamilyCases(last, cache[CkksParams(last)], cache[BfvParams(last)]);
      FamilyNamesDistinct(last, cache[CkksParams(last)], cache[BfvParams(last)]);
      forall k | 0 <= k < |init|
        ensures Tag(init[k], cache) != Tag(last, cache)
      {
        assert init[k] == catalog[k];
      }
      FamiliesApart(init, cache, last);
      DistinctNamesConcat(a, b);
    }
  }

  /**
    The catalog of the library has one entry per degree, all below 2^31; then
    `n` alone tells the families apart and all names are distinct.
  */
  lemma DistinctDegreesNamesDistinct(catalog: seq<Entry>, cache: Cache)
    requires Covers(cache, catalog)
    requires forall i, j :: 0 <= i < j < |catalog| ==> catalog[i].degree != catalog[j].degree
    requires forall i :: 0 <= i < |catalog| ==> catalog[i].degree < TwoTo31
    ensures Distinct(catalog)
    ensures DistinctNames(AllFamilies(catalog, cache))
  {
    assert forall i, j :: 0 <= i < j < |catalog| ==> Tag(catalog[i], cache) != Tag(catalog[j], cache) by {
      forall i, j | 0 <= i < j < |catalog|
        ensures Tag(catalog[i], cache) != Tag(catalog[j], cache)
      {
        assert FamilyN(catalog[i]) == catalog[i].degree && FamilyN(catalog[j]) == catalog[j].degree;
      }
    }
    AllNamesDistinct(catalog, cache);
  }

  /**
    Names are unique per `n` and `log_q`, not per entry: two entries share
    a name exactly when they agree on both, whatever their coefficient moduli.
  */
  lemma TwoEntryNames(d: Entry, e: Entry, cache: Cache)
    requires Covers(cache, [d, e])
    ensures DistinctNames(AllFamilies([d, e], cache)) <==> Tag(d, cache) != Tag(e, cache)
  {
    var a := FamilyCases(d, cache[CkksParams(d)], cache[BfvParams(d)]);
    var b := FamilyCases(e, cache[CkksParams(e)], cache[BfvParams(e)]);
    TwoFamilies(d, e, cache);
    if Tag(d, cache) == Tag(e, cache) {
      FamilyFirstCase(d, cache[CkksParams(d)], cache[BfvParams(d)]);
      FamilyFirstCase(e, cache[CkksParams(e)], cache[BfvParams(e)]);
      assert (a + b)[0] == a[0] && (a + b)[|a|] == b[0];
    } else {
      AllNamesDistinct([d, e], cache);
    }
  }

  /**
    Two entries with the same `n` and `log_q` give every registration they
    both make the same name, whatever their moduli.
  */
  lemma SameTagSameNames(d: Entry, e: Entry, cache: Cache)
    requires Covers(cache, [d, e])
    requires Tag(d, cache) == Tag(e, cache)
    ensures forall r :: r in FamilyRows(cache[BfvParams(d)]) && r in FamilyRows(cache[BfvParams(e)]) ==> CaseFor(d, FamilyN(d), FamilyLogQ(cache[CkksParams(d)]), r).name == CaseFor(e, FamilyN(e), FamilyLogQ(cache[CkksParams(e)]), r).name
    ensures forall r :: r in FamilyRows(cache[BfvParams(d)]) && r in FamilyRows(cache[BfvParams(e)]) ==> CaseFor(d, FamilyN(d), FamilyLogQ(cache[CkksParams(d)]), r) in FamilyCases(d, cache[CkksParams(d)], cache[BfvParams(d)]) && CaseFor(e, FamilyN(e), FamilyLogQ(cache[CkksParams(e)]), r) in FamilyCases(e, cache[CkksParams(e)], cache[BfvParams(e)])
  {
    forall r | r in FamilyRows(cache[BfvParams(d)]) && r in FamilyRows(cache[BfvParams(e)])
      ensures CaseFor(d, FamilyN(d), FamilyLogQ(cache[CkksParams(d)]), r) in FamilyCases(d, cache[CkksParams(d)], cache[BfvParams(d)])
      ensures CaseFor(e, FamilyN(e), FamilyLogQ(cache[CkksParams(e)]), r) in FamilyCases(e, cache[CkksParams(e)], cache[BfvParams(e)])
    {
      var i :| 0 <= i < |FamilyRows(cache[BfvParams(d)])| && FamilyRows(cache[BfvParams(d)])[i] == r;
      var j :| 0 <= j < |FamilyRows(cache[BfvParams(e)])| && FamilyRows(cache[BfvParams(e)])[j] == r;
      assert FamilyCases(d, cache[CkksParams(d)], cache[BfvParams(d)])[i] == CaseFor(d, FamilyN(d), FamilyLogQ(cache[CkksParams(d)]), r);
      assert FamilyCases(e, cache[CkksParams(e)], cache[BfvParams(e)])[j] == CaseFor(e, FamilyN(e), FamilyLogQ(cache[CkksParams(e)]), r);
    }
  }

  /** A one-entry catalog registers the family of its entry. */
  lemma OneFamily(d: Entry, cache: Cache)
    requires Covers(cache, [d])
    ensures AllFamilies([d], cache) == FamilyCases(d, cache[CkksParams(d)], cache[BfvParams(d)])
  {
    var c := [d];
    assert c[|c| - 1] == d && c[..|c| - 1] == [];
    assert AllFamilies(c[..|c| - 1], cache) == [];
  }

  /** A two-entry catalog registers the first family, then the second. */
  lemma TwoFamilies(d: Entry, e: Entry, cache: Cache)
    requires Covers(cache, [d, e])
    ensures AllFamilies([d, e], cache) == FamilyCases(d, cache[CkksParams(d)], cache[BfvParams(d)]) + FamilyCases(e, cache[CkksParams(e)], cache[BfvParams(e)])
  {
    var c := [d, e];
    AllFamiliesStep(c, cache, 1);
    assert c[..1] == [d] && c[..2] == c;
    OneFamily(d, cache);
  }
}
