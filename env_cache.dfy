/**
  The precomputation pass of the benchmark driver: one environment per
  derived parameter set, CKKS first and then BFV for every catalog entry,
  inserted into a map that refuses a key it already holds.
*/
module EnvCache {
  import opened Wrappers
  import opened Params

  type Cache = map<ParamSet, Env>

  /** The message of the `invalid_argument` thrown on a repeated key. */
  const DuplicateError: string := "duplicate parameter sets"

  /** The cache holds both derived keys of every entry of `catalog`. */
  predicate Covers(cache: Cache, catalog: seq<Entry>)
  {
    forall e :: e in catalog ==> CkksParams(e) in cache && BfvParams(e) in cache
  }

  /**
    `emplace` on the cache: a new key is inserted and the cache grows by one;
    a key already present leaves the cache unchanged and reports `None`
    (the `.second == false` of the source).
  */
  function Emplace(cache: Cache, k: ParamSet, v: Env): (r: Option<Cache>)
    ensures r.Some? <==> k !in cache
    ensures r.Some? ==> r.value.Keys == cache.Keys + {k} && |r.value| == |cache| + 1
    ensures r.Some? ==> r.value[k] == v && forall k' :: k' in cache ==> r.value[k'] == cache[k']
  {
    if k in cache then None else Some(cache[k := v])
  }

  /**
    Builds the cache, with `makeEnv` standing for `make_shared<BMEnv>(parms)`.
    It fails exactly when two catalog entries coincide; otherwise its keys
    are the keys derived from the catalog, two per entry, each bound to the
    environment built from it.
  */
  method BuildEnvCache(catalog: seq<Entry>, makeEnv: ParamSet -> Env) returns (r: Result<Cache, string>)
    ensures r.Success? <==> Distinct(catalog)
    ensures r.Failure? ==> r.error == DuplicateError
    ensures r.Success? ==> r.value.Keys == DerivedKeys(catalog)
    ensures r.Success? ==> forall k :: k in r.value ==> r.value[k] == makeEnv(k)
    ensures r.Success? ==> |r.value| == 2 * |catalog|
  {
    var cache: Cache := map[];
    var i := 0;
    while i < |catalog|
      invariant 0 <= i <= |catalog|
      invariant forall a, b :: 0 <= a < b < i ==> catalog[a] != catalog[b]
      invariant cache.Keys == DerivedKeys(catalog[..i])
      invariant forall k :: k in cache ==> cache[k] == makeEnv(k)
      invariant |cache| == 2 * i
    {
      var e := catalog[i];
      var ckks := CkksParams(e);
      var bfv := BfvParams(e);
      var inserted := Emplace(cache, ckks, makeEnv(ckks));
      if inserted.None? {
        RepeatedKey(catalog, i, ckks);
        return Failure(DuplicateError);
      }
      cache := inserted.value;
      inserted := Emplace(cache, bfv, makeEnv(bfv));
      if inserted.None? {
        DerivedParamsCollide(e, e);
        RepeatedKey(catalog, i, bfv);
        return Failure(DuplicateError);
      }
      cache := inserted.value;
      ExtendStep(catalog, i);
      DistinctStep(catalog, i);
      i := i + 1;
    }
    assert catalog[..i] == catalog;
    return Success(cache);
  }

  /** A key of entry `i` that an earlier entry already derived means entry `i` repeats an earlier one. */
  lemma RepeatedKey(catalog: seq<Entry>, i: nat, k: ParamSet)
    requires i < |catalog|
    requires k == CkksParams(catalog[i]) || k == BfvParams(catalog[i])
    requires k in DerivedKeys(catalog[..i])
    ensures !Distinct(catalog)
  {
    DerivedKeysMembers(catalog[..i], k);
    var e :| e in catalog[..i] && (k == CkksParams(e) || k == BfvParams(e));
    var j :| 0 <= j < i && catalog[..i][j] == e;
    DerivedParamsCollide(e, catalog[i]);
    DerivedParamsCollide(catalog[i], e);
    assert catalog[j] == catalog[i];
  }

  /** Appending a fresh entry keeps the prefix distinct and adds its two keys. */
  lemma ExtendStep(catalog: seq<Entry>, i: nat)
    requires i < |catalog|
    requires CkksParams(catalog[i]) !in DerivedKeys(catalog[..i])
    ensures forall j :: 0 <= j < i ==> catalog[j] != catalog[i]
    ensures DerivedKeys(catalog[..i + 1]) == DerivedKeys(catalog[..i]) + {CkksParams(catalog[i]), BfvParams(catalog[i])}
  {
    var p := catalog[..i];
    assert catalog[..i + 1][..i] == p;
    forall j | 0 <= j < i
      ensures catalog[j] != catalog[i]
    {
      DerivedKeysMembers(p, CkksParams(catalog[j]));
      assert catalog[j] in p;
    }
  }

  lemma DistinctStep(catalog: seq<Entry>, i: nat)
    requires i < |catalog|
    requires forall a, b :: 0 <= a < b < i ==> catalog[a] != catalog[b]
    requires forall j :: 0 <= j < i ==> catalog[j] != catalog[i]
    ensures forall a, b :: 0 <= a < b < i + 1 ==> catalog[a] != catalog[b]
  {
  }

  /** A successful build covers every entry, which is what registering a family needs. */
  lemma DerivedKeysCover(cache: Cache, catalog: seq<Entry>)
    requires cache.Keys == DerivedKeys(catalog)
    ensures Covers(cache, catalog)
  {
    forall e | e in catalog
      ensures CkksParams(e) in cache && BfvParams(e) in cache
    {
      DerivedKeysMembers(catalog, CkksParams(e));
      DerivedKeysMembers(catalog, BfvParams(e));
    }
  }
}
