/**
  What a registered family looks like, proved about the cases
  `register_bm_family` appends: how many there are, what each one carries,
  that their names are pairwise distinct, and that a case is present
  exactly when the gate of its registration holds.
*/
module Family {
  import opened Wrappers
  import opened Decimal
  import opened BenchName
  import opened Params
  import opened Registrar

  /** The (category, operation) pair a row's name is made of. */
  function Key(r: Row): (Category, Op)
  {
    (r.category, r.op)
  }

  predicate DistinctKeys(rows: seq<Row>)
  {
    forall i, j :: 0 <= i < j < |rows| ==> Key(rows[i]) != Key(rows[j])
  }

  predicate InCategory(rows: seq<Row>, c: Category)
  {
    forall i :: 0 <= i < |rows| ==> rows[i].category == c
  }

  /** A row binds the BFV environment exactly when it is a BFV row. */
  predicate BindsByCategory(rows: seq<Row>)
  {
    forall i :: 0 <= i < |rows| ==> (rows[i].binds == Scheme.Bfv <==> rows[i].category == Category.Bfv)
  }

  lemma KeyGenTableFacts()
    ensures DistinctKeys(KeyGenTable) && InCategory(KeyGenTable, KeyGen) && BindsByCategory(KeyGenTable)
  {
  }

  lemma BfvTableFacts()
    ensures DistinctKeys(BfvTable) && InCategory(BfvTable, Category.Bfv) && BindsByCategory(BfvTable)
  {
  }

  lemma CkksTableFacts()
    ensures DistinctKeys(CkksTable) && InCategory(CkksTable, Category.Ckks) && BindsByCategory(CkksTable)
  {
  }

  lemma {:induction false} DistinctKeysConcat(a: seq<Row>, b: seq<Row>)
    requires DistinctKeys(a) && DistinctKeys(b)
    requires forall i, j :: 0 <= i < |a| && 0 <= j < |b| ==> a[i].category != b[j].category
    ensures DistinctKeys(a + b)
  {
    forall i, j | 0 <= i < j < |a + b|
      ensures Key((a + b)[i]) != Key((a + b)[j])
    {
      if j < |a| {
        assert Key(a[i]) != Key(a[j]);
      } else if i >= |a| {
        assert Key(b[i - |a|]) != Key(b[j - |a|]);
      } else {
        assert a[i].category != b[j - |a|].category;
      }
    }
  }

  lemma BindsByCategoryConcat(a: seq<Row>, b: seq<Row>)
    requires BindsByCategory(a) && BindsByCategory(b)
    ensures BindsByCategory(a + b)
  {
    forall i | 0 <= i < |a + b|
      ensures ((a + b)[i].binds == Scheme.Bfv <==> (a + b)[i].category == Category.Bfv)
    {
      if i >= |a| {
        assert (a + b)[i] == b[i - |a|];
      }
    }
  }

  /** No two registrations of a family share a category and an operation, and each binds the environment of its category. */
  lemma TableFacts()
    ensures DistinctKeys(Table) && BindsByCategory(Table)
  {
    KeyGenTableFacts();
    BfvTableFacts();
    CkksTableFacts();
    DistinctKeysConcat(BfvTable, CkksTable);
    DistinctKeysConcat(KeyGenTable, BfvTable + CkksTable);
    BindsByCategoryConcat(BfvTable, CkksTable);
    BindsByCategoryConcat(KeyGenTable, BfvTable + CkksTable);
    assert Table == KeyGenTable + (BfvTable + CkksTable);
  }

  /** Two registrations with the same category and operation are the same registration. */
  lemma TableKeyUnique(r: Row, s: Row)
    requires r in Table && s in Table && Key(r) == Key(s)
    ensures r == s
  {
    TableFacts();
    var i :| 0 <= i < |Table| && Table[i] == r;
    var j :| 0 <= j < |Table| && Table[j] == s;
    assert !(i < j) && !(j < i);
  }

  /** A row is selected exactly when it is one of the rows and its gate holds. */
  lemma {:induction false} SelectMembers(rows: seq<Row>, bfv: Env, r: Row)
    ensures r in Select(rows, bfv) <==> r in rows && GateHolds(r.gate, bfv)
    decreases |rows|
  {
    if rows != [] {
      SelectMembers(rows[1..], bfv, r);
      assert rows == [rows[0]] + rows[1..];
    }
  }

  /** Selection keeps the rows in order, so it keeps their keys distinct. */
  lemma {:induction false} SelectDistinct(rows: seq<Row>, bfv: Env)
    requires DistinctKeys(rows)
    ensures DistinctKeys(Select(rows, bfv))
    decreases |rows|
  {
    if rows != [] {
      var tail := rows[1..];
      assert DistinctKeys(tail) by {
        forall i, j | 0 <= i < j < |tail|
          ensures Key(tail[i]) != Key(tail[j])
        {
          assert tail[i] == rows[i + 1] && tail[j] == rows[j + 1];
        }
      }
      SelectDistinct(tail, bfv);
      var rest := Select(tail, bfv);
      var head: seq<Row> := if GateHolds(rows[0].gate, bfv) then [rows[0]] else [];
      forall j | 0 <= j < |rest|
        ensures Key(rows[0]) != Key(rest[j])
      {
        SelectMembers(tail, bfv, rest[j]);
        var k :| 0 <= k < |tail| && tail[k] == rest[j];
        assert rows[k + 1] == rest[j];
      }
      DistinctKeysHead(head, rest, rows[0]);
    }
  }

  lemma DistinctKeysHead(head: seq<Row>, rest: seq<Row>, r: Row)
    requires head == [] || head == [r]
    requires DistinctKeys(rest)
    requires forall j :: 0 <= j < |rest| ==> Key(r) != Key(rest[j])
    ensures DistinctKeys(head + rest)
  {
    if head == [] {
      assert head + rest == rest;
    } else {
      forall i, j | 0 <= i < j < |head + rest|
        ensures Key((head + rest)[i]) != Key((head + rest)[j])
      {
        assert (head + rest)[j] == rest[j - 1];
        if i > 0 {
          assert (head + rest)[i] == rest[i - 1];
        }
      }
    }
  }

  /** Case `i` of a family is the case of row `i` of the family's rows. */
  lemma FamilyCaseAt(e: Entry, ckks: Env, bfv: Env, i: nat)
    requires i < |FamilyCases(e, ckks, bfv)|
    ensures FamilyCases(e, ckks, bfv)[i] == CaseFor(e, FamilyN(e), FamilyLogQ(ckks), FamilyRows(bfv)[i])
  {
  }

  /**
    What every case of a family carries: a registration of the table whose
    gate holds, a name that reads back as the family's `n` and `log_q` with
    the row's category and operation, the row's body, the environment of its
    category (BFV for BFV cases, CKKS for KeyGen and CKKS cases), and the
    harness settings of 10 iterations in microseconds.
  */
  lemma FamilyCaseFields(e: Entry, ckks: Env, bfv: Env, i: nat)
    requires i < |FamilyCases(e, ckks, bfv)|
    ensures FamilyRows(bfv)[i] in Table && GateHolds(FamilyRows(bfv)[i].gate, bfv)
    ensures ParseName(FamilyCases(e, ckks, bfv)[i].name)
      == Some(NameFields(FamilyN(e), FamilyLogQ(ckks), FamilyRows(bfv)[i].category, FamilyRows(bfv)[i].op))
    ensures FamilyCases(e, ckks, bfv)[i].bench == FamilyRows(bfv)[i].bench
    ensures FamilyCases(e, ckks, bfv)[i].env
      == if FamilyRows(bfv)[i].category == Category.Bfv then BfvParams(e) else CkksParams(e)
    ensures FamilyCases(e, ckks, bfv)[i].iterations == 10 && FamilyCases(e, ckks, bfv)[i].unit == Microsecond
  {
    var r := FamilyRows(bfv)[i];
    FamilyCaseAt(e, ckks, bfv, i);
    SelectMembers(Table, bfv, r);
    TableFacts();
    var k :| 0 <= k < |Table| && Table[k] == r;
    ParseFormat(NameFields(FamilyN(e), FamilyLogQ(ckks), r.category, r.op));
  }

  /** The names of one family are pairwise distinct. */
  lemma FamilyNamesDistinct(e: Entry, ckks: Env, bfv: Env)
    ensures forall i, j :: 0 <= i < j < |FamilyCases(e, ckks, bfv)| ==>
      FamilyCases(e, ckks, bfv)[i].name != FamilyCases(e, ckks, bfv)[j].name
  {
    var cs := FamilyCases(e, ckks, bfv);
    var rows := FamilyRows(bfv);
    TableFacts();
    SelectDistinct(Table, bfv);
    forall i, j | 0 <= i < j < |cs|
      ensures cs[i].name != cs[j].name
    {
      FamilyCaseAt(e, ckks, bfv, i);
      FamilyCaseAt(e, ckks, bfv, j);
      assert Key(rows[i]) != Key(rows[j]);
      if cs[i].name == cs[j].name {
        FormatNameInjective(NameFields(FamilyN(e), FamilyLogQ(ckks), rows[i].category, rows[i].op),
                            NameFields(FamilyN(e), FamilyLogQ(ckks), rows[j].category, rows[j].op));
      }
    }
  }

  /**
    Gating: the case of a registration is in the family exactly when the
    registration's gate holds for the BFV environment, and it is the only
    case of the family carrying its name.
  */
  lemma FamilyGating(e: Entry, ckks: Env, bfv: Env, r: Row)
    requires r in Table
    ensures CaseFor(e, FamilyN(e), FamilyLogQ(ckks), r) in FamilyCases(e, ckks, bfv) <==> GateHolds(r.gate, bfv)
    ensures forall c :: c in FamilyCases(e, ckks, bfv) && c.name == CaseFor(e, FamilyN(e), FamilyLogQ(ckks), r).name ==>
      c == CaseFor(e, FamilyN(e), FamilyLogQ(ckks), r)
  {
    var n := FamilyN(e);
    var logQ := FamilyLogQ(ckks);
    var cs := FamilyCases(e, ckks, bfv);
    var rows := FamilyRows(bfv);
    SelectMembers(Table, bfv, r);
    forall c | c in cs && c.name == CaseFor(e, n, logQ, r).name
      ensures c == CaseFor(e, n, logQ, r) && GateHolds(r.gate, bfv)
    {
      var i :| 0 <= i < |cs| && cs[i] == c;
      FamilyCaseAt(e, ckks, bfv, i);
      SelectMembers(Table, bfv, rows[i]);
      FormatNameInjective(NameFields(n, logQ, rows[i].category, rows[i].op), NameFields(n, logQ, r.category, r.op));
      TableKeyUnique(rows[i], r);
    }
    if GateHolds(r.gate, bfv) {
      var i :| 0 <= i < |rows| && rows[i] == r;
      FamilyCaseAt(e, ckks, bfv, i);
      assert cs[i] == CaseFor(e, n, logQ, r);
    }
  }

  /**
    The family's size: 22 cases always, seven more under key switching
    (two KeyGen, three BFV, two CKKS) and two more on a chain of more than
    one level (modulus switching and rescaling); by category 2, 10 and 10
    always.
  */
  lemma FamilySize(e: Entry, ckks: Env, bfv: Env)
    ensures |KeyGenRows(bfv)| == 2 + (if bfv.usingKeyswitching then 2 else 0)
    ensures |BfvRows(bfv)| == 10 + (if bfv.firstLevelModulusCount > 1 then 1 else 0) + (if bfv.usingKeyswitching then 3 else 0)
    ensures |CkksRows(bfv)| == 10 + (if bfv.firstLevelModulusCount > 1 then 1 else 0) + (if bfv.usingKeyswitching then 2 else 0)
    ensures |FamilyCases(e, ckks, bfv)|
      == 22 + (if bfv.usingKeyswitching then 7 else 0) + (if bfv.firstLevelModulusCount > 1 then 2 else 0)
  {
    FamilyRowsBlocks(bfv);
  }

  /** The CKKS `EvaluateMulPt` case is always registered and runs the ciphertext multiplication body. */
  lemma CkksMulPtRunsMulCt(e: Entry, ckks: Env, bfv: Env)
    ensures exists c :: c in FamilyCases(e, ckks, bfv) && c.name == FormatName(FamilyN(e), FamilyLogQ(ckks), Category.Ckks, EvaluateMulPt)
    ensures forall c :: c in FamilyCases(e, ckks, bfv) && c.name == FormatName(FamilyN(e), FamilyLogQ(ckks), Category.Ckks, EvaluateMulPt) ==> c.bench == BmCkksMulCt
  {
    var r := CkksEvaluation[3];
    assert r == Row(Category.Ckks, EvaluateMulPt, BmCkksMulCt, Scheme.Ckks, Always);
    assert r in Table by {
      assert Table[26] == r;
    }
    FamilyGating(e, ckks, bfv, r);
  }

  /** Every name of a family reads back with the family's `n` and `log_q`. */
  lemma FamilyCaseName(e: Entry, ckks: Env, bfv: Env, c: Case)
    requires c in FamilyCases(e, ckks, bfv)
    ensures ParseName(c.name).Some?
    ensures ParseName(c.name).value.n == FamilyN(e) && ParseName(c.name).value.logQ == FamilyLogQ(ckks)
  {
    var i :| 0 <= i < |FamilyCases(e, ckks, bfv)| && FamilyCases(e, ckks, bfv)[i] == c;
    FamilyCaseFields(e, ckks, bfv, i);
  }

  /** Every family opens with the secret-key generation case. */
  lemma FamilyFirstCase(e: Entry, ckks: Env, bfv: Env)
    ensures |FamilyCases(e, ckks, bfv)| > 0
    ensures FamilyCases(e, ckks, bfv)[0].name == FormatName(FamilyN(e), FamilyLogQ(ckks), KeyGen, Secret)
  {
    FamilyRowsBlocks(bfv);
    assert FamilyRows(bfv)[0] == KeyGenBase[0];
    FamilyCaseAt(e, ckks, bfv, 0);
  }
}
