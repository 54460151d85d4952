/**
  Parameter sets, catalog entries and environments, with the encryption
  library abstracted: an `EncryptionParameters` value is a `ParamSet`
  datatype compared field by field, and a `BMEnv` keeps only the three
  properties of its context that the registration code reads.
*/
module Params {
  import opened Wrappers

  datatype Scheme = Bfv | Ckks

  /** A coefficient modulus prime, by its value. */
  type Modulus = nat

  /**
    The plain modulus `PlainModulus::Batching(degree, bitSize)` returns. The
    library picks a prime deterministically from its two arguments; the model
    keeps the arguments, which identify the prime.
  */
  datatype PlainModulus = Batching(degree: nat, bitSize: nat)

  /** `EncryptionParameters`: the key of the environment cache. */
  datatype ParamSet = ParamSet(scheme: Scheme, degree: nat, coeffModulus: seq<Modulus>, plainModulus: Option<PlainModulus>)

  /** One catalog entry: a polynomial modulus degree and its coefficient modulus chain. */
  datatype Entry = Entry(degree: nat, coeffModulus: seq<Modulus>)

  /**
    What an environment's context reports:
    `using_keyswitching()`, the number of primes in `first_context_data()`'s
    coefficient modulus, and `key_context_data()->total_coeff_modulus_bit_count()`.
  */
  datatype Env = Env(usingKeyswitching: bool, firstLevelModulusCount: nat, keyLevelTotalBits: nat)

  /** The bit size of the batching plain modulus ("default to 20-bit plain_modulus"). */
  const PlainModulusBits: nat := 20

  /** The CKKS parameters derived from an entry (no plain modulus). */
  function CkksParams(e: Entry): ParamSet
  {
    ParamSet(Ckks, e.degree, e.coeffModulus, None)
  }

  /** The BFV parameters derived from an entry, with the 20-bit batching plain modulus. */
  function BfvParams(e: Entry): ParamSet
  {
    ParamSet(Bfv, e.degree, e.coeffModulus, Some(Batching(e.degree, PlainModulusBits)))
  }

  /**
    The two keys derived from entries collide only when the entries are equal
    and the scheme is the same: a CKKS key never equals a BFV key.
  */
  lemma DerivedParamsCollide(d: Entry, e: Entry)
    ensures CkksParams(d) != BfvParams(e)
    ensures CkksParams(d) == CkksParams(e) <==> d == e
    ensures BfvParams(d) == BfvParams(e) <==> d == e
  {
  }

  /** The entries of a catalog are pairwise distinct. */
  predicate Distinct(catalog: seq<Entry>)
  {
    forall i, j :: 0 <= i < j < |catalog| ==> catalog[i] != catalog[j]
  }

  /** The keys derived from the entries of `catalog`, two per entry. */
  function DerivedKeys(catalog: seq<Entry>): set<ParamSet>
    decreases |catalog|
  {
    if catalog == [] then {}
    else
      var last := catalog[|catalog| - 1];
      DerivedKeys(catalog[..|catalog| - 1]) + {CkksParams(last), BfvParams(last)}
  }

  /** A key is derived from a catalog exactly when it is one of the two keys of one of its entries. */
  lemma {:induction false} DerivedKeysMembers(catalog: seq<Entry>, k: ParamSet)
    ensures k in DerivedKeys(catalog) <==> exists e :: e in catalog && (k == CkksParams(e) || k == BfvParams(e))
    decreases |catalog|
  {
    if catalog != [] {
      var init := catalog[..|catalog| - 1];
      DerivedKeysMembers(init, k);
      assert catalog == init + [catalog[|catalog| - 1]];
    }
  }
}
