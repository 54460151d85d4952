# SEAL benchmark families, modelled in Dafny

This project models the part of the Microsoft SEAL benchmark harness
(`native/bench/bench.cpp`) that sets up the benchmark cases. It covers:

- **the environment cache.** The catalog of parameter pairs is a polynomial
  modulus degree plus a coefficient modulus chain for each entry. From every
  entry, `main` derives a CKKS parameter set and a BFV parameter set. The BFV
  set gets the 20-bit batching plain modulus. `main` builds one environment
  (`BMEnv`) per parameter set and inserts it into a map. A key that is already
  present aborts the run with `"duplicate parameter sets"`.
- **the benchmark names.** Every case is registered as
  `n=<n> / log_q=<log_q> / <Category> / <Op>`. `n` is the degree through
  `static_cast<int>`, and `log_q` is the total bit count of the CKKS key
  level. `<Category>` and `<Op>` are the macro arguments, stringified.
- **`register_bm_family`.** It registers the KeyGen, BFV and CKKS cases of one
  entry, in that order. It binds each case to the BFV or CKKS environment.
  Some cases stand under a gate read from the BFV environment's context:
  - relinearization, Galois and rotation cases need key switching;
  - modulus switching and rescaling need a first-level chain of more than one prime.
- **the driver.** It copies the catalog, builds the cache, and registers one
  family per entry in catalog order.

Modules:

| module | file | role |
|---|---|---|
| `Wrappers` | `wrappers.dfy` | `Option` and `Result` |
| `Decimal` | `decimal.dfy` | the 32-bit cast, `to_string` and its inverse parser |
| `BenchName` | `bench_name.dfy` | the name format and its parser |
| `Params` | `params.dfy` | parameter sets, catalog entries, environments |
| `EnvCache` | `env_cache.dfy` | the cache build loop |
| `Registrar` | `registrar.dfy` | `register_bm` (a `Registry` class whose `cases` sequence the methods extend), the declarative table of the 31 registrations, and `register_bm_family` |
| `Family` | `family.dfy` | what one family contains |
| `Driver` | `driver.dfy` | `main`'s loops and what all families together contain |

How `RegisterFamily` is built and proved:

- It performs the source's registrations call by call, under the source's
  `if`s.
- It is split into one method per group of consecutive registrations, such
  as BFV encryption, BFV encoding and BFV evaluation. This keeps each proof
  small.
- Its contract ties the appended cases to `FamilyCases`: the table rows whose
  gates hold, in table order.
- The `Family` and `Driver` lemmas prove the properties of `FamilyCases`.

## Model

| member | source | states |
|---|---|---|
| `Decimal.Int32Cast` | native/bench/bench.cpp:52-54 | `static_cast<int>` of a `size_t`: the result lies in the 32-bit signed range, is congruent to the input modulo 2^32, and equals the input below 2^31 |
| `Decimal.Int32CastWraps` | native/bench/bench.cpp:52 | degrees 2^32 apart are cast to the same `n` |
| `Decimal.NatToDecimal` | native/bench/bench.cpp:26-29 | `to_string` of a non-negative value is a canonical numeral (digits only, no leading zero), and starts with '0' exactly for zero |
| `Decimal.DecimalValueOfNat` | native/bench/bench.cpp:26-29 | the digits `to_string` writes denote the value |
| `Decimal.DecimalOfParseNat` | native/bench/bench.cpp:26-29 | every canonical numeral is the `to_string` of its value |
| `Decimal.IntToString` | native/bench/bench.cpp:26-29 | `to_string(int)` is non-empty and made of digits and '-' only, so it never contains '/' |
| `Decimal.ParseIntOfString` | native/bench/bench.cpp:26-29 | parsing the `to_string` of any int, negative ones included, gives that int back |
| `Decimal.StringOfParseInt` | native/bench/bench.cpp:26-29 | every string the int parser accepts is the `to_string` of the value it returns |
| `Decimal.IntToStringInjective` | native/bench/bench.cpp:26-29 | distinct ints have distinct `to_string` texts |
| `BenchName.CategoryName` | native/bench/bench.cpp:26-29 | the stringified category parses back to itself and contains no '/' |
| `BenchName.FindOp` | native/bench/bench.cpp:26-29 | the operation search returns the first operation of the list whose token is the text, and finds none only when no operation of the list has that token |
| `BenchName.ParseOpName` | native/bench/bench.cpp:26-29 | the stringified operation parses back to itself |
| `BenchName.SplitSep` | native/bench/bench.cpp:28 | a successful split at " / " returns the two sides around the separator, and no separator starts inside the left side, so the split is at the first one |
| `BenchName.SplitSepJoin` | native/bench/bench.cpp:28 | a left side without '/' is recovered by the split |
| `BenchName.ParseFormat` | native/bench/bench.cpp:26-29 | parsing a formatted name recovers n, log_q, category and operation |
| `BenchName.FormatParse` | native/bench/bench.cpp:26-29 | every text the name parser accepts is the name formatted from the fields it returns |
| `BenchName.FormatNameInjective` | native/bench/bench.cpp:26-29 | two names are equal only when all four fields are |
| `Params.DerivedParamsCollide` | native/bench/bench.cpp:135-141 | a CKKS parameter set never equals a BFV one, and two entries derive equal sets of one scheme exactly when the entries are equal |
| `Params.DerivedKeysMembers` | native/bench/bench.cpp:133-151 | a parameter set is a derived key of the catalog exactly when it is the CKKS or the BFV set of one of its entries |
| `EnvCache.Emplace` | native/bench/bench.cpp:143-150 | `emplace` succeeds exactly when the key is absent; then it adds that key bound to the value, grows the map by one, and keeps every other binding |
| `EnvCache.BuildEnvCache` | native/bench/bench.cpp:133-151 | the build fails, with "duplicate parameter sets", exactly when two catalog entries coincide; otherwise its keys are the derived keys, each bound to the environment built from it, and it holds 2 × (number of entries) environments |
| `EnvCache.RepeatedKey` | native/bench/bench.cpp:143-150 | an insertion that finds its key present implies two equal catalog entries |
| `EnvCache.DerivedKeysCover` | native/bench/bench.cpp:39-45 | after a successful build, both lookups `register_bm_family` performs for every entry find their key |
| `Registrar.Registry.Register` | native/bench/bench.cpp:18-24 | `register_bm` appends one case with the given name, body and environment, run for 10 iterations and reported in microseconds |
| `Registrar.SelectConcat` | native/bench/bench.cpp:55-101 | the gating of a concatenation is the concatenation of the gatings |
| `Registrar.SelectUniform` | native/bench/bench.cpp:57-101 | a block of registrations under one `if` is kept whole when its condition holds and dropped whole otherwise |
| `Registrar.FamilyRowsBlocks` | native/bench/bench.cpp:47-101 | a family's registrations are the KeyGen, then BFV, then CKKS ones. Each category's unconditional block comes first, followed by its gated blocks when their conditions hold |
| `Registrar.RegisterKeyGenBase` | native/bench/bench.cpp:55-56 | appends the KeyGen Secret and Public cases, bound to the CKKS environment |
| `Registrar.RegisterKeyGenKeyswitch` | native/bench/bench.cpp:59-60 | appends the KeyGen Relin and Galois cases |
| `Registrar.RegisterBfvEncryption` | native/bench/bench.cpp:62-64 | appends the BFV encryption and decryption cases, bound to the BFV environment |
| `Registrar.RegisterBfvEncoding` | native/bench/bench.cpp:65-66 | appends the BFV batch encode and decode cases |
| `Registrar.RegisterBfvEvaluation` | native/bench/bench.cpp:67-71 | appends the BFV add, multiply and square cases |
| `Registrar.RegisterBfvModSwitch` | native/bench/bench.cpp:74 | appends the BFV modulus switching case |
| `Registrar.RegisterBfvKeyswitch` | native/bench/bench.cpp:78-80 | appends the BFV relinearization and row and column rotation cases |
| `Registrar.RegisterCkksEncryption` | native/bench/bench.cpp:83-85 | appends the CKKS encryption and decryption cases, bound to the CKKS environment |
| `Registrar.RegisterCkksEncoding` | native/bench/bench.cpp:86-87 | appends the CKKS encode and decode cases |
| `Registrar.RegisterCkksEvaluation` | native/bench/bench.cpp:88-92 | appends the CKKS add, multiply and square cases, with `EvaluateMulPt` running `bm_ckks_mul_ct` |
| `Registrar.RegisterCkksRescale` | native/bench/bench.cpp:95 | appends the CKKS rescaling case |
| `Registrar.RegisterCkksKeyswitch` | native/bench/bench.cpp:99-100 | appends the CKKS relinearization and rotation cases |
| `Registrar.RegisterFamily` | native/bench/bench.cpp:31-101 | `register_bm_family` appends exactly the cases of the table rows whose gates hold for the BFV environment, in table order, named with the family's n and log_q |
| `Family.TableFacts` | native/bench/bench.cpp:55-101 | no two registrations of a family share category and operation, and a registration binds the BFV environment exactly when it is a BFV one |
| `Family.TableKeyUnique` | native/bench/bench.cpp:55-101 | a category and an operation identify one registration |
| `Family.SelectMembers` | native/bench/bench.cpp:57-101 | a registration is performed exactly when it is in the table and its condition holds |
| `Family.SelectDistinct` | native/bench/bench.cpp:57-101 | gating keeps the (category, operation) pairs distinct |
| `Family.FamilyCaseFields` | native/bench/bench.cpp:18-29 | every case of a family carries a name that parses back to the family's n and log_q with its row's category and operation, its row's body, the BFV environment for BFV cases and the CKKS one otherwise, 10 iterations and microseconds |
| `Family.FamilyNamesDistinct` | native/bench/bench.cpp:55-101 | the names within one family are pairwise distinct |
| `Family.FamilyGating` | native/bench/bench.cpp:57-101 | the case of a registration is present exactly when its gate holds, and no other case of the family has its name |
| `Family.FamilySize` | native/bench/bench.cpp:55-101 | a family has 22 cases, plus 7 under key switching and 2 on a multi-prime chain. The category counts are 2+2, 10+1+3 and 10+1+2 |
| `Family.CkksMulPtRunsMulCt` | native/bench/bench.cpp:91 | every family registers CKKS `EvaluateMulPt`, and any case with that name runs the ciphertext multiplication body |
| `Family.FamilyCaseName` | native/bench/bench.cpp:52-56 | every name of a family reads back with the family's n and log_q |
| `Family.FamilyFirstCase` | native/bench/bench.cpp:55 | every family opens with the `KeyGen / Secret` case |
| `Driver.CopyCatalog` | native/bench/bench.cpp:127-130 | the copied parameter vector equals the catalog |
| `Driver.RegisterAll` | native/bench/bench.cpp:157-160 | the registration loop appends the families of the entries in catalog order |
| `Driver.Run` | native/bench/bench.cpp:112-160 | `main` fails with "duplicate parameter sets" exactly when two entries coincide, and then registers nothing. Otherwise it builds the cache from the catalog and registers every entry's family |
| `Driver.AllFamiliesStep` | native/bench/bench.cpp:157-160 | each turn of the registration loop appends the next entry's family |
| `Driver.AllFamiliesSize` | native/bench/bench.cpp:157-160 | the driver registers the sum of the family counts, between 22 and 31 cases per entry |
| `Driver.AllFamiliesMembers` | native/bench/bench.cpp:157-160 | every registered case belongs to the family of some catalog entry |
| `Driver.FamiliesApart` | native/bench/bench.cpp:52-60 | a family whose n and log_q no earlier entry shares has no name in common with the earlier families |
| `Driver.AllNamesDistinct` | native/bench/bench.cpp:52-60 | when no two entries share both n and log_q, all registered names are pairwise distinct |
| `Driver.DistinctDegreesNamesDistinct` | native/bench/bench.cpp:52-54 | with pairwise distinct degrees below 2^31, the catalog has no duplicate and all registered names are distinct |
| `Driver.TwoFamilies` | native/bench/bench.cpp:157-160 | a two-entry catalog registers the first entry's family, then the second's |
| `Driver.SameTagSameNames` | native/bench/bench.cpp:26-29 | for two entries with equal n and log_q, a row present in both families is registered in both under the same name, whatever their moduli |
| `Driver.TwoEntryNames` | native/bench/bench.cpp:26-29 | two entries' families have distinct names exactly when the entries differ in n or in log_q, whatever their moduli |

## Left out

- The library calls are abstracted. A parameter set is a value compared
  field by field. The plain modulus is kept as the request
  `PlainModulus::Batching(degree, 20)`, not as the prime it selects. An
  environment keeps only the three facts the registration reads:
  - whether key switching is used;
  - the number of primes in the first level;
  - the key level's total bit count.
  Building an environment (context, key generation, random data) is a
  parameter `makeEnv` of the driver.
- `GetDefaultCoeffModulus128()` is the library's static data. The catalog is
  an input sequence. The model also covers catalogs with repeated entries,
  which the source rejects at run time.
- The benchmark bodies `bm_*` appear only as tags naming which body a case runs.
- These parts of the benchmark framework are not modelled:
  - `RegisterBenchmark` beyond appending to the registration list;
  - `Initialize` and `RunSpecifiedBenchmarks`;
  - timing;
  - the console and memory-pool messages.
- The Util registrations are commented out in the source and are not registered.
- Characters are Dafny `char`s, not bytes. `to_string` is modelled for its
  ASCII output.
- The `throw` of `invalid_argument` is a `Failure` result. The partially built
  map it leaves behind is not returned.
- `RegisterFamily` requires both lookups to succeed, because the source
  dereferences `find` without a check. `EnvCache.DerivedKeysCover` shows the
  driver always meets this.
- Names are unique per (n, log_q), not per catalog entry.
  `Driver.SameTagSameNames` proves that two entries with equal degree and
  equal key-level bit count give the same name to every registration both
  make. `Driver.TwoEntryNames` proves that two entries' families have all
  names distinct exactly when the entries differ in n or in log_q.
  `Int32Cast` also maps degrees 2^32 apart to the same `n`. Global uniqueness
  is proved under pairwise distinct (n, log_q) and, as a corollary, under
  distinct degrees below 2^31.
- Operation names are the stringified macro arguments of the code (`Secret`,
  `EvaluateAddCt`, ...), not longer descriptive names. The code is followed.
