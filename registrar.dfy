/**
  Registration of one benchmark family (`register_bm_family`): for one
  catalog entry, the cases of the KeyGen, BFV and CKKS categories, each
  gated on what the BFV environment's context reports.

  The cases a family is expected to yield are given by a declarative table,
  one row per `SEAL_BENCHMARK_REGISTER` call of the source with the gate it
  stands under; `RegisterFamily` does what the source does, call by call
  under its `if`s, and is proved to append exactly the rows of the table
  whose gates hold, in table order. Its calls are grouped into one method
  per block of consecutive registrations, which keeps each proof small.
*/
module Registrar {
  import opened Wrappers
  import opened Decimal
  import opened BenchName
  import opened Params

  /** The benchmark bodies `bm_*` the family binds; their code is not modelled. */
  datatype BenchFn =
    | BmKeygenSecret | BmKeygenPublic | BmKeygenRelin | BmKeygenGalois
    | BmBfvEncryptSecret | BmBfvEncryptPublic | BmBfvDecrypt | BmBfvEncodeBatch | BmBfvDecodeBatch
    | BmBfvAddCt | BmBfvAddPt | BmBfvMulCt | BmBfvMulPt | BmBfvSquare
    | BmBfvModswitchInplace | BmBfvRelinInplace | BmBfvRotateRows | BmBfvRotateCols
    | BmCkksEncryptSecret | BmCkksEncryptPublic | BmCkksDecrypt | BmCkksEncodeDouble | BmCkksDecodeDouble
    | BmCkksAddCt | BmCkksAddPt | BmCkksMulCt | BmCkksSquare
    | BmCkksRescaleInplace | BmCkksRelinInplace | BmCkksRotate

  /** The time units of the benchmark harness. */
  datatype TimeUnit = Nanosecond | Microsecond | Millisecond | Second

  /** Every case runs a fixed 10 iterations, reported in microseconds. */
  const Iterations: nat := 10
  const ReportUnit: TimeUnit := Microsecond

  /**
    One registered case: its display name, the body it runs, the cache key
    of the environment the body is bound to, and how the harness runs it.
  */
  datatype Case = Case(name: string, bench: BenchFn, env: ParamSet, iterations: nat, unit: TimeUnit)

  /** The harness's global list of registered benchmarks, in registration order. */
  class Registry {
    var cases: seq<Case>

    constructor ()
      ensures cases == []
    {
      cases := [];
    }

    /** `register_bm`: registers `bench` bound to `env` under `name`, for 10 iterations in microseconds. */
    method Register(name: string, bench: BenchFn, env: ParamSet)
      modifies this
      ensures cases == old(cases) + [Case(name, bench, env, Iterations, ReportUnit)]
    {
      cases := cases + [Case(name, bench, env, Iterations, ReportUnit)];
    }
  }

  /** The condition a registration stands under, always read from the BFV environment. */
  datatype Gate = Always | IfKeyswitching | IfMultiLevel

  predicate GateHolds(g: Gate, bfv: Env)
  {
    match g
    case Always => true
    case IfKeyswitching => bfv.usingKeyswitching
    case IfMultiLevel => bfv.firstLevelModulusCount > 1
  }

  /** One `SEAL_BENCHMARK_REGISTER` call: category, operation, body, which environment it binds, its gate. */
  datatype Row = Row(category: Category, op: Op, bench: BenchFn, binds: Scheme, gate: Gate)

  /** Secret and public key generation. */
  const KeyGenBase: seq<Row> := [
    Row(KeyGen, Secret, BmKeygenSecret, Scheme.Ckks, Always),
    Row(KeyGen, Public, BmKeygenPublic, Scheme.Ckks, Always)]

  /** Relinearization and Galois key generation, under key switching. */
  const KeyGenKeyswitch: seq<Row> := [
    Row(KeyGen, Relin, BmKeygenRelin, Scheme.Ckks, IfKeyswitching),
    Row(KeyGen, Galois, BmKeygenGalois, Scheme.Ckks, IfKeyswitching)]

  /** BFV encryption and decryption. */
  const BfvEncryption: seq<Row> := [
    Row(Category.Bfv, EncryptSecret, BmBfvEncryptSecret, Scheme.Bfv, Always),
    Row(Category.Bfv, EncryptPublic, BmBfvEncryptPublic, Scheme.Bfv, Always),
    Row(Category.Bfv, Decrypt, BmBfvDecrypt, Scheme.Bfv, Always)]

  /** BFV batch encoding and decoding. */
  const BfvEncoding: seq<Row> := [
    Row(Category.Bfv, EncodeBatch, BmBfvEncodeBatch, Scheme.Bfv, Always),
    Row(Category.Bfv, DecodeBatch, BmBfvDecodeBatch, Scheme.Bfv, Always)]

  /** BFV additions, multiplications and squaring. */
  const BfvEvaluation: seq<Row> := [
    Row(Category.Bfv, EvaluateAddCt, BmBfvAddCt, Scheme.Bfv, Always),
    Row(Category.Bfv, EvaluateAddPt, BmBfvAddPt, Scheme.Bfv, Always),
    Row(Category.Bfv, EvaluateMulCt, BmBfvMulCt, Scheme.Bfv, Always),
    Row(Category.Bfv, EvaluateMulPt, BmBfvMulPt, Scheme.Bfv, Always),
    Row(Category.Bfv, EvaluateSquare, BmBfvSquare, Scheme.Bfv, Always)]

  /** BFV modulus switching, on a chain of more than one level. */
  const BfvModSwitch: seq<Row> := [
    Row(Category.Bfv, EvaluateModSwitchInplace, BmBfvModswitchInplace, Scheme.Bfv, IfMultiLevel)]

  /** BFV relinearization and rotations, under key switching. */
  const BfvKeyswitch: seq<Row> := [
    Row(Category.Bfv, EvaluateRelinInplace, BmBfvRelinInplace, Scheme.Bfv, IfKeyswitching),
    Row(Category.Bfv, EvaluateRotateRows, BmBfvRotateRows, Scheme.Bfv, IfKeyswitching),
    Row(Category.Bfv, EvaluateRotateCols, BmBfvRotateCols, Scheme.Bfv, IfKeyswitching)]

  /** CKKS encryption and decryption. */
  const CkksEncryption: seq<Row> := [
    Row(Category.Ckks, EncryptSecret, BmCkksEncryptSecret, Scheme.Ckks, Always),
    Row(Category.Ckks, EncryptPublic, BmCkksEncryptPublic, Scheme.Ckks, Always),
    Row(Category.Ckks, Decrypt, BmCkksDecrypt, Scheme.Ckks, Always)]

  /** CKKS encoding and decoding. */
  const CkksEncoding: seq<Row> := [
    Row(Category.Ckks, EncodeDouble, BmCkksEncodeDouble, Scheme.Ckks, Always),
    Row(Category.Ckks, DecodeDouble, BmCkksDecodeDouble, Scheme.Ckks, Always)]

  /** CKKS additions, multiplications and squaring; `EvaluateMulPt` runs `bm_ckks_mul_ct`, as in the source. */
  const CkksEvaluation: seq<Row> := [
    Row(Category.Ckks, EvaluateAddCt, BmCkksAddCt, Scheme.Ckks, Always),
    Row(Category.Ckks, EvaluateAddPt, BmCkksAddPt, Scheme.Ckks, Always),
    Row(Category.Ckks, EvaluateMulCt, BmCkksMulCt, Scheme.Ckks, Always),
    Row(Category.Ckks, EvaluateMulPt, BmCkksMulCt, Scheme.Ckks, Always),
    Row(Category.Ckks, EvaluateSquare, BmCkksSquare, Scheme.Ckks, Always)]

  /** CKKS rescaling, on a chain of more than one level. */
  const CkksRescale: seq<Row> := [
    Row(Category.Ckks, EvaluateRescaleInplace, BmCkksRescaleInplace, Scheme.Ckks, IfMultiLevel)]

  /** CKKS relinearization and rotation, under key switching. */
  const CkksKeyswitch: seq<Row> := [
    Row(Category.Ckks, EvaluateRelinInplace, BmCkksRelinInplace, Scheme.Ckks, IfKeyswitching),
    Row(Category.Ckks, EvaluateRotate, BmCkksRotate, Scheme.Ckks, IfKeyswitching)]

  const BfvBase: seq<Row> := BfvEncryption + BfvEncoding + BfvEvaluation
  const CkksBase: seq<Row> := CkksEncryption + CkksEncoding + CkksEvaluation
  const KeyGenTable: seq<Row> := KeyGenBase + KeyGenKeyswitch
  const BfvTable: seq<Row> := BfvBase + BfvModSwitch + BfvKeyswitch
  const CkksTable: seq<Row> := CkksBase + CkksRescale + CkksKeyswitch

  /** Every registration of a family, in the order of the source. */
  const Table: seq<Row> := KeyGenTable + BfvTable + CkksTable

  /** The rows of `rows` whose gates hold for `bfv`, in their order. */
  function Select(rows: seq<Row>, bfv: Env): seq<Row>
    decreases |rows|
  {
    if rows == [] then []
    else (if GateHolds(rows[0].gate, bfv) then [rows[0]] else []) + Select(rows[1..], bfv)
  }

  lemma {:induction false} SelectConcat(a: seq<Row>, b: seq<Row>, bfv: Env)
    ensures Select(a + b, bfv) == Select(a, bfv) + Select(b, bfv)
    decreases |a|
  {
    if a != [] {
      assert (a + b)[1..] == a[1..] + b;
      SelectConcat(a[1..], b, bfv);
    } else {
      assert a + b == b;
    }
  }

  /** A block whose rows share one gate is kept whole or dropped whole. */
  lemma {:induction false} SelectUniform(rows: seq<Row>, g: Gate, bfv: Env)
    requires GatedBy(rows, g)
    ensures Select(rows, bfv) == if GateHolds(g, bfv) then rows else []
    decreases |rows|
  {
    if rows != [] {
      SelectUniform(rows[1..], g, bfv);
      assert [rows[0]] + rows[1..] == rows;
    }
  }

  /** The rows a family registers: the table rows whose gates hold for the BFV environment. */
  function FamilyRows(bfv: Env): seq<Row>
  {
    Select(Table, bfv)
  }

  /** Every table block is uniformly gated. */
  predicate GatedBy(rows: seq<Row>, g: Gate)
  {
    forall i :: 0 <= i < |rows| ==> rows[i].gate == g
  }

  lemma BlockGates()
    ensures GatedBy(KeyGenBase, Always) && GatedBy(KeyGenKeyswitch, IfKeyswitching)
    ensures GatedBy(BfvBase, Always) && GatedBy(BfvModSwitch, IfMultiLevel) && GatedBy(BfvKeyswitch, IfKeyswitching)
    ensures GatedBy(CkksBase, Always) && GatedBy(CkksRescale, IfMultiLevel) && GatedBy(CkksKeyswitch, IfKeyswitching)
  {
  }

  function KeyGenRows(bfv: Env): seq<Row>
  {
    KeyGenBase + (if bfv.usingKeyswitching then KeyGenKeyswitch else [])
  }

  function BfvRows(bfv: Env): seq<Row>
  {
    BfvBase + (if bfv.firstLevelModulusCount > 1 then BfvModSwitch else [])
    + (if bfv.usingKeyswitching then BfvKeyswitch else [])
  }

  function CkksRows(bfv: Env): seq<Row>
  {
    CkksBase + (if bfv.firstLevelModulusCount > 1 then CkksRescale else [])
    + (if bfv.usingKeyswitching then CkksKeyswitch else [])
  }

  lemma KeyGenSelect(bfv: Env)
    ensures Select(KeyGenTable, bfv) == KeyGenRows(bfv)
  {
    BlockGates();
    SelectConcat(KeyGenBase, KeyGenKeyswitch, bfv);
    SelectUniform(KeyGenBase, Always, bfv);
    SelectUniform(KeyGenKeyswitch, IfKeyswitching, bfv);
  }

  lemma BfvSelect(bfv: Env)
    ensures Select(BfvTable, bfv) == BfvRows(bfv)
  {
    BlockGates();
    SelectConcat(BfvBase + BfvModSwitch, BfvKeyswitch, bfv);
    SelectConcat(BfvBase, BfvModSwitch, bfv);
    SelectUniform(BfvBase, Always, bfv);
    SelectUniform(BfvModSwitch, IfMultiLevel, bfv);
    SelectUniform(BfvKeyswitch, IfKeyswitching, bfv);
  }

  lemma CkksSelect(bfv: Env)
    ensures Select(CkksTable, bfv) == CkksRows(bfv)
  {
    BlockGates();
    SelectConcat(CkksBase + CkksRescale, CkksKeyswitch, bfv);
    SelectConcat(CkksBase, CkksRescale, bfv);
    SelectUniform(CkksBase, Always, bfv);
    SelectUniform(CkksRescale, IfMultiLevel, bfv);
    SelectUniform(CkksKeyswitch, IfKeyswitching, bfv);
  }

  /**
    The family's rows category by category: KeyGen, then BFV, then CKKS, each
    category's blocks at their fixed places and present exactly when their gate holds.
  */
  lemma FamilyRowsBlocks(bfv: Env)
    ensures FamilyRows(bfv) == KeyGenRows(bfv) + BfvRows(bfv) + CkksRows(bfv)
  {
    SelectConcat(KeyGenTable, BfvTable + CkksTable, bfv);
    SelectConcat(BfvTable, CkksTable, bfv);
    assert Table == KeyGenTable + (BfvTable + CkksTable);
    KeyGenSelect(bfv);
    BfvSelect(bfv);
    CkksSelect(bfv);
  }

  /** The case registered for `row` in the family of `e`, with the family's `n` and `log_q`. */
  function CaseFor(e: Entry, n: int, logQ: int, row: Row): Case
  {
    Case(FormatName(n, logQ, row.category, row.op), row.bench,
         if row.binds == Scheme.Bfv then BfvParams(e) else CkksParams(e),
         Iterations, ReportUnit)
  }

  function CasesFor(e: Entry, n: int, logQ: int, rows: seq<Row>): (cs: seq<Case>)
    ensures |cs| == |rows|
  {
    seq(|rows|, i requires 0 <= i < |rows| => CaseFor(e, n, logQ, rows[i]))
  }

  lemma CasesForConcat(e: Entry, n: int, logQ: int, a: seq<Row>, b: seq<Row>)
    ensures CasesFor(e, n, logQ, a + b) == CasesFor(e, n, logQ, a) + CasesFor(e, n, logQ, b)
  {
  }

  lemma CasesForJoin(e: Entry, n: int, logQ: int, start: seq<Case>, all: seq<Row>, before: seq<Case>, done: seq<Row>, cases: seq<Case>)
    requires before == start + CasesFor(e, n, logQ, all)
    requires cases == before + CasesFor(e, n, logQ, done)
    ensures cases == start + CasesFor(e, n, logQ, all + done)
  {
    CasesForConcat(e, n, logQ, all, done);
  }

  /** `n` of a family: the entry's degree through `static_cast<int>`. */
  function FamilyN(e: Entry): int
  {
    Int32Cast(e.degree)
  }

  /** `log_q` of a family: the CKKS key level's total coefficient modulus bits through `static_cast<int>`. */
  function FamilyLogQ(ckks: Env): int
  {
    Int32Cast(ckks.keyLevelTotalBits)
  }

  /** The cases `register_bm_family` registers for `e`, given its CKKS and BFV environments. */
  function FamilyCases(e: Entry, ckks: Env, bfv: Env): seq<Case>
  {
    CasesFor(e, FamilyN(e), FamilyLogQ(ckks), FamilyRows(bfv))
  }

  /** Registers KeyGen `Secret` and `Public`. */
  method RegisterKeyGenBase(e: Entry, n: int, logQ: int, registry: Registry)
    modifies registry
    ensures registry.cases == old(registry.cases) + CasesFor(e, n, logQ, KeyGenBase)
  {
    registry.Register(FormatName(n, logQ, KeyGen, Secret), BmKeygenSecret, CkksParams(e));
    registry.Register(FormatName(n, logQ, KeyGen, Public), BmKeygenPublic, CkksParams(e));
  }

  /** Registers KeyGen `Relin` and `Galois`. */
  method RegisterKeyGenKeyswitch(e: Entry, n: int, logQ: int, registry: Registry)
    modifies registry
    ensures registry.cases == old(registry.cases) + CasesFor(e, n, logQ, KeyGenKeyswitch)
  {
    registry.Register(FormatName(n, logQ, KeyGen, Relin), BmKeygenRelin, CkksParams(e));
    registry.Register(FormatName(n, logQ, KeyGen, Galois), BmKeygenGalois, CkksParams(e));
  }

  /** Registers BFV `EncryptSecret`, `EncryptPublic` and `Decrypt`. */
  method RegisterBfvEncryption(e: Entry, n: int, logQ: int, registry: Registry)
    modifies registry
    ensures registry.cases == old(registry.cases) + CasesFor(e, n, logQ, BfvEncryption)
  {
    registry.Register(FormatName(n, logQ, Category.Bfv, EncryptSecret), BmBfvEncryptSecret, BfvParams(e));
    registry.Register(FormatName(n, logQ, Category.Bfv, EncryptPublic), BmBfvEncryptPublic, BfvParams(e));
    registry.Register(FormatName(n, logQ, Category.Bfv, Decrypt), BmBfvDecrypt, BfvParams(e));
  }

  /** Registers BFV `EncodeBatch` and `DecodeBatch`. */
  method RegisterBfvEncoding(e: Entry, n: int, logQ: int, registry: Registry)
    modifies registry
    ensures registry.cases == old(registry.cases) + CasesFor(e, n, logQ, BfvEncoding)
  {
    registry.Register(FormatName(n, logQ, Category.Bfv, EncodeBatch), BmBfvEncodeBatch, BfvParams(e));
    registry.Register(FormatName(n, logQ, Category.Bfv, DecodeBatch), BmBfvDecodeBatch, BfvParams(e));
  }

  /** Registers BFV `EvaluateAddCt` to `EvaluateSquare`. */
  method RegisterBfvEvaluation(e: Entry, n: int, logQ: int, registry: Registry)
    modifies registry
    ensures registry.cases == old(registry.cases) + CasesFor(e, n, logQ, BfvEvaluation)
  {
    registry.Register(FormatName(n, logQ, Category.Bfv, EvaluateAddCt), BmBfvAddCt, BfvParams(e));
    registry.Register(FormatName(n, logQ, Category.Bfv, EvaluateAddPt), BmBfvAddPt, BfvParams(e));
    registry.Register(FormatName(n, logQ, Category.Bfv, EvaluateMulCt), BmBfvMulCt, BfvParams(e));
    registry.Register(FormatName(n, logQ, Category.Bfv, EvaluateMulPt), BmBfvMulPt, BfvParams(e));
    registry.Register(FormatName(n, logQ, Category.Bfv, EvaluateSquare), BmBfvSquare, BfvParams(e));
  }

  /** Registers BFV `EvaluateModSwitchInplace`. */
  method RegisterBfvModSwitch(e: Entry, n: int, logQ: int, registry: Registry)
    modifies registry
    ensures registry.cases == old(registry.cases) + CasesFor(e, n, logQ, BfvModSwitch)
  {
    registry.Register(FormatName(n, logQ, Category.Bfv, EvaluateModSwitchInplace), BmBfvModswitchInplace, BfvParams(e));
  }

  /** Registers BFV `EvaluateRelinInplace`, `EvaluateRotateRows` and `EvaluateRotateCols`. */
  method RegisterBfvKeyswitch(e: Entry, n: int, logQ: int, registry: Registry)
    modifies registry
    ensures registry.cases == old(registry.cases) + CasesFor(e, n, logQ, BfvKeyswitch)
  {
    registry.Register(FormatName(n, logQ, Category.Bfv, EvaluateRelinInplace), BmBfvRelinInplace, BfvParams(e));
    registry.Register(FormatName(n, logQ, Category.Bfv, EvaluateRotateRows), BmBfvRotateRows, BfvParams(e));
    registry.Register(FormatName(n, logQ, Category.Bfv, EvaluateRotateCols), BmBfvRotateCols, BfvParams(e));
  }

  /** Registers CKKS `EncryptSecret`, `EncryptPublic` and `Decrypt`. */
  method RegisterCkksEncryption(e: Entry, n: int, logQ: int, registry: Registry)
    modifies registry
    ensures registry.cases == old(registry.cases) + CasesFor(e, n, logQ, CkksEncryption)
  {
    registry.Register(FormatName(n, logQ, Category.Ckks, EncryptSecret), BmCkksEncryptSecret, CkksParams(e));
    registry.Register(FormatName(n, logQ, Category.Ckks, EncryptPublic), BmCkksEncryptPublic, CkksParams(e));
    registry.Register(FormatName(n, logQ, Category.Ckks, Decrypt), BmCkksDecrypt, CkksParams(e));
  }

  /** Registers CKKS `EncodeDouble` and `DecodeDouble`. */
  method RegisterCkksEncoding(e: Entry, n: int, logQ: int, registry: Registry)
    modifies registry
    ensures registry.cases == old(registry.cases) + CasesFor(e, n, logQ, CkksEncoding)
  {
    registry.Register(FormatName(n, logQ, Category.Ckks, EncodeDouble), BmCkksEncodeDouble, CkksParams(e));
    registry.Register(FormatName(n, logQ, Category.Ckks, DecodeDouble), BmCkksDecodeDouble, CkksParams(e));
  }

  /** Registers CKKS `EvaluateAddCt` to `EvaluateSquare`. */
  method RegisterCkksEvaluation(e: Entry, n: int, logQ: int, registry: Registry)
    modifies registry
    ensures registry.cases == old(registry.cases) + CasesFor(e, n, logQ, CkksEvaluation)
  {
    registry.Register(FormatName(n, logQ, Category.Ckks, EvaluateAddCt), BmCkksAddCt, CkksParams(e));
    registry.Register(FormatName(n, logQ, Category.Ckks, EvaluateAddPt), BmCkksAddPt, CkksParams(e));
    registry.Register(FormatName(n, logQ, Category.Ckks, EvaluateMulCt), BmCkksMulCt, CkksParams(e));
    registry.Register(FormatName(n, logQ, Category.Ckks, EvaluateMulPt), BmCkksMulCt, CkksParams(e));
    registry.Register(FormatName(n, logQ, Category.Ckks, EvaluateSquare), BmCkksSquare, CkksParams(e));
  }

  /** Registers CKKS `EvaluateRescaleInplace`. */
  method RegisterCkksRescale(e: Entry, n: int, logQ: int, registry: Registry)
    modifies registry
    ensures registry.cases == old(registry.cases) + CasesFor(e, n, logQ, CkksRescale)
  {
    registry.Register(FormatName(n, logQ, Category.Ckks, EvaluateRescaleInplace), BmCkksRescaleInplace, CkksParams(e));
  }

  /** Registers CKKS `EvaluateRelinInplace` and `EvaluateRotate`. */
  method RegisterCkksKeyswitch(e: Entry, n: int, logQ: int, registry: Registry)
    modifies registry
    ensures registry.cases == old(registry.cases) + CasesFor(e, n, logQ, CkksKeyswitch)
  {
    registry.Register(FormatName(n, logQ, Category.Ckks, EvaluateRelinInplace), BmCkksRelinInplace, CkksParams(e));
    registry.Register(FormatName(n, logQ, Category.Ckks, EvaluateRotate), BmCkksRotate, CkksParams(e));
  }
  /**
    `register_bm_family`. Both derived parameter sets must be in the cache:
    the source dereferences the result of `find` without checking it.
  */
  method RegisterFamily(e: Entry, cache: map<ParamSet, Env>, registry: Registry)
    requires CkksParams(e) in cache && BfvParams(e) in cache
    modifies registry
    ensures registry.cases == old(registry.cases) + FamilyCases(e, cache[CkksParams(e)], cache[BfvParams(e)])
  {
    var envBfv := cache[BfvParams(e)];
    var envCkks := cache[CkksParams(e)];
    var n := Int32Cast(e.degree);
    var logQ := Int32Cast(envCkks.keyLevelTotalBits);
    ghost var start := registry.cases;
    ghost var before := registry.cases;

    RegisterKeyGenBase(e, n, logQ, registry);
    ghost var keyGen := KeyGenBase;
    if envBfv.usingKeyswitching {
      before := registry.cases;
      RegisterKeyGenKeyswitch(e, n, logQ, registry);
      CasesForJoin(e, n, logQ, start, keyGen, before, KeyGenKeyswitch, registry.cases);
      keyGen := keyGen + KeyGenKeyswitch;
    }
    assert keyGen == KeyGenRows(envBfv);

    ghost var bfvStart := registry.cases;
    RegisterBfvEncryption(e, n, logQ, registry);
    ghost var bfv := BfvEncryption;
    before := registry.cases;
    RegisterBfvEncoding(e, n, logQ, registry);
    CasesForJoin(e, n, logQ, bfvStart, bfv, before, BfvEncoding, registry.cases);
    bfv := bfv + BfvEncoding;
    before := registry.cases;
    RegisterBfvEvaluation(e, n, logQ, registry);
    CasesForJoin(e, n, logQ, bfvStart, bfv, before, BfvEvaluation, registry.cases);
    bfv := bfv + BfvEvaluation;
    if envBfv.firstLevelModulusCount > 1 {
      before := registry.cases;
      RegisterBfvModSwitch(e, n, logQ, registry);
      CasesForJoin(e, n, logQ, bfvStart, bfv, before, BfvModSwitch, registry.cases);
      bfv := bfv + BfvModSwitch;
    }
    if envBfv.usingKeyswitching {
      before := registry.cases;
      RegisterBfvKeyswitch(e, n, logQ, registry);
      CasesForJoin(e, n, logQ, bfvStart, bfv, before, BfvKeyswitch, registry.cases);
      bfv := bfv + BfvKeyswitch;
    }
    assert bfv == BfvRows(envBfv);
    CasesForJoin(e, n, logQ, start, keyGen, bfvStart, bfv, registry.cases);

    ghost var ckksStart := registry.cases;
    RegisterCkksEncryption(e, n, logQ, registry);
    ghost var ckks := CkksEncryption;
    before := registry.cases;
    RegisterCkksEncoding(e, n, logQ, registry);
    CasesForJoin(e, n, logQ, ckksStart, ckks, before, CkksEncoding, registry.cases);
    ckks := ckks + CkksEncoding;
    before := registry.cases;
    RegisterCkksEvaluation(e, n, logQ, registry);
    CasesForJoin(e, n, logQ, ckksStart, ckks, before, CkksEvaluation, registry.cases);
    ckks := ckks + CkksEvaluation;
    if envBfv.firstLevelModulusCount > 1 {
      before := registry.cases;
      RegisterCkksRescale(e, n, logQ, registry);
      CasesForJoin(e, n, logQ, ckksStart, ckks, before, CkksRescale, registry.cases);
      ckks := ckks + CkksRescale;
    }
    if envBfv.usingKeyswitching {
      before := registry.cases;
      RegisterCkksKeyswitch(e, n, logQ, registry);
      CasesForJoin(e, n, logQ, ckksStart, ckks, before, CkksKeyswitch, registry.cases);
      ckks := ckks + CkksKeyswitch;
    }
    assert ckks == CkksRows(envBfv);
    CasesForJoin(e, n, logQ, start, keyGen + bfv, ckksStart, ckks, registry.cases);
    FamilyRowsBlocks(envBfv);
  }
}
