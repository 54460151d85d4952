/**
  The display name every benchmark case is registered under, as the
  `SEAL_BENCHMARK_REGISTER` macro builds it:

      n=<n> / log_q=<log_q> / <Category> / <Op>

  where `<Category>` and `<Op>` are the macro arguments stringified. The
  parser `ParseName` is the partner of `FormatName`: the two are inverse, so
  a name determines its four fields.
*/
module BenchName {
  import opened Wrappers
  import opened Decimal

  /** The `category` argument of the macro. */
  datatype Category = KeyGen | Bfv | Ckks

  /** The `name` argument of the macro, one constructor per operation the harness registers. */
  datatype Op =
    | Secret | Public | Relin | Galois
    | EncryptSecret | EncryptPublic | Decrypt
    | EncodeBatch | DecodeBatch | EncodeDouble | DecodeDouble
    | EvaluateAddCt | EvaluateAddPt | EvaluateMulCt | EvaluateMulPt | EvaluateSquare
    | EvaluateModSwitchInplace | EvaluateRescaleInplace | EvaluateRelinInplace
    | EvaluateRotateRows | EvaluateRotateCols | EvaluateRotate

  function ParseCategory(s: string): Option<Category>
  {
    if s == "KeyGen" then Some(KeyGen)
    else if s == "BFV" then Some(Bfv)
    else if s == "CKKS" then Some(Ckks)
    else None
  }

  /** `#category`: the category's token in a name; it never contains '/'. */
  function CategoryName(c: Category): (s: string)
    ensures ParseCategory(s) == Some(c)
    ensures '/' !in s
  {
    match c
    case KeyGen => "KeyGen"
    case Bfv => "BFV"
    case Ckks => "CKKS"
  }

  /** Every operation, in declaration order. */
  const AllOps: seq<Op> := [
    Secret, Public, Relin, Galois,
    EncryptSecret, EncryptPublic, Decrypt,
    EncodeBatch, DecodeBatch, EncodeDouble, DecodeDouble,
    EvaluateAddCt, EvaluateAddPt, EvaluateMulCt, EvaluateMulPt, EvaluateSquare,
    EvaluateModSwitchInplace, EvaluateRescaleInplace, EvaluateRelinInplace,
    EvaluateRotateRows, EvaluateRotateCols, EvaluateRotate]

  /** The first operation of `ops` whose token is `s`. */
  function FindOp(s: string, ops: seq<Op>): (r: Option<Op>)
    ensures r.Some? ==> r.value in ops && OpName(r.value) == s
    ensures r.None? ==> forall o :: o in ops ==> OpName(o) != s
    ensures r.Some? ==> exists k :: 0 <= k < |ops| && ops[k] == r.value && forall j :: 0 <= j < k ==> OpName(ops[j]) != s
  {
    if ops == [] then None
    else if OpName(ops[0]) == s then Some(ops[0])
    else
      var r := FindOp(s, ops[1..]);
      assert r.Some? ==> exists k :: 1 <= k < |ops| && ops[k] == r.value && forall j :: 0 <= j < k ==> OpName(ops[j]) != s by {
        if r.Some? {
          var k :| 0 <= k < |ops[1..]| && ops[1..][k] == r.value && forall j :: 0 <= j < k ==> OpName(ops[1..][j]) != s;
          assert forall j :: 1 <= j < k + 1 ==> ops[j] == ops[1..][j - 1];
        }
      }
      r
  }

  function ParseOp(s: string): Option<Op>
  {
    FindOp(s, AllOps)
  }

  /** `#name`: the operation's token in a name. */
  function OpName(o: Op): string
  {
    match o
    case Secret => "Secret"
    case Public => "Public"
    case Relin => "Relin"
    case Galois => "Galois"
    case EncryptSecret => "EncryptSecret"
    case EncryptPublic => "EncryptPublic"
    case Decrypt => "Decrypt"
    case EncodeBatch => "EncodeBatch"
    case DecodeBatch => "DecodeBatch"
    case EncodeDouble => "EncodeDouble"
    case DecodeDouble => "DecodeDouble"
    case EvaluateAddCt => "EvaluateAddCt"
    case EvaluateAddPt => "EvaluateAddPt"
    case EvaluateMulCt => "EvaluateMulCt"
    case EvaluateMulPt => "EvaluateMulPt"
    case EvaluateSquare => "EvaluateSquare"
    case EvaluateModSwitchInplace => "EvaluateModSwitchInplace"
    case EvaluateRelinInplace => "EvaluateRelinInplace"
    case EvaluateRotateRows => "EvaluateRotateRows"
    case EvaluateRotateCols => "EvaluateRotateCols"
    case EvaluateRescaleInplace => "EvaluateRescaleInplace"
    case EvaluateRotate => "EvaluateRotate"
  }

  lemma CategoryOfParse(s: string, c: Category)
    requires ParseCategory(s) == Some(c)
    ensures CategoryName(c) == s
  {
  }

  lemma OpNameInjective(o: Op, p: Op)
    ensures OpName(o) == OpName(p) ==> o == p
  {
  }

  lemma ParseOpName(o: Op)
    ensures ParseOp(OpName(o)) == Some(o)
  {
    assert o in AllOps;
    OpNameInjective(o, ParseOp(OpName(o)).value);
  }

  /** The four fields a name carries. */
  datatype NameFields = NameFields(n: int, logQ: int, category: Category, op: Op)

  const Sep: string := " / "

  /** The name `SEAL_BENCHMARK_REGISTER(category, n, log_q, name, ...)` registers. */
  function FormatName(n: int, logQ: int, category: Category, op: Op): string
  {
    "n=" + IntToString(n) + " / log_q=" + IntToString(logQ) + Sep + CategoryName(category) + Sep + OpName(op)
  }

  function Format(f: NameFields): string
  {
    FormatName(f.n, f.logQ, f.category, f.op)
  }

  /** `s` holds " / " at position `k`. */
  predicate SepAt(s: string, k: nat)
  {
    k + |Sep| <= |s| && s[k..k + |Sep|] == Sep
  }

  /** Splits `s` at the first occurrence of " / ". */
  function SplitSep(s: string): (r: Option<(string, string)>)
    ensures r.Some? ==> s == r.value.0 + Sep + r.value.1
    ensures r.Some? ==> forall k :: 0 <= k < |r.value.0| ==> !SepAt(s, k)
    decreases |s|
  {
    if |s| < 3 then None
    else if s[..3] == Sep then Some(([], s[3..]))
    else
      match SplitSep(s[1..])
      case None => None
      case Some(p) =>
        assert forall k :: 1 <= k <= |p.0| ==> (SepAt(s, k) <==> SepAt(s[1..], k - 1));
        Some(([s[0]] + p.0, p.1))
  }

  lemma {:induction false} SplitSepJoin(a: string, b: string)
    requires '/' !in a
    ensures SplitSep(a + Sep + b) == Some((a, b))
    decreases |a|
  {
    var s := a + Sep + b;
    if a != [] {
      assert s[1] != '/';
      assert s[..3] != Sep;
      assert s[1..] == a[1..] + Sep + b;
      SplitSepJoin(a[1..], b);
      assert [s[0]] + a[1..] == a;
    } else {
      assert s[..3] == Sep;
      assert s[3..] == b;
    }
  }

  /** Reads `prefix` followed by a `to_string` numeral. */
  function ParseField(prefix: string, s: string): Option<int>
  {
    if |s| >= |prefix| && s[..|prefix|] == prefix then ParseInt(s[|prefix|..]) else None
  }

  lemma FieldOfParse(prefix: string, s: string, v: int)
    requires ParseField(prefix, s) == Some(v)
    ensures s == prefix + IntToString(v)
  {
    StringOfParseInt(s[|prefix|..], v);
    assert s == s[..|prefix|] + s[|prefix|..];
  }

  lemma ParseOfField(prefix: string, v: int)
    ensures ParseField(prefix, prefix + IntToString(v)) == Some(v)
  {
    var s := prefix + IntToString(v);
    assert s[..|prefix|] == prefix;
    assert s[|prefix|..] == IntToString(v);
    ParseIntOfString(v);
  }

  /** Reads back the fields of a name; `None` when the text does not follow the grammar. */
  function ParseName(s: string): Option<NameFields>
  {
    var p0 :- SplitSep(s);
    var p1 :- SplitSep(p0.1);
    var p2 :- SplitSep(p1.1);
    var n :- ParseField("n=", p0.0);
    var logQ :- ParseField("log_q=", p1.0);
    var category :- ParseCategory(p2.0);
    var op :- ParseOp(p2.1);
    Some(NameFields(n, logQ, category, op))
  }

  /** The name as its four " / "-separated pieces. */
  lemma FormatPieces(f: NameFields)
    ensures Format(f) == ("n=" + IntToString(f.n)) + Sep + (("log_q=" + IntToString(f.logQ)) + Sep + (CategoryName(f.category) + Sep + OpName(f.op)))
  {
  }

  lemma ParseFormat(f: NameFields)
    ensures ParseName(Format(f)) == Some(f)
  {
    var a := "n=" + IntToString(f.n);
    var b := "log_q=" + IntToString(f.logQ);
    var c := CategoryName(f.category);
    var o := OpName(f.op);
    FormatPieces(f);
    SplitSepJoin(a, b + Sep + (c + Sep + o));
    SplitSepJoin(b, c + Sep + o);
    SplitSepJoin(c, o);
    ParseOfField("n=", f.n);
    ParseOfField("log_q=", f.logQ);
    ParseOpName(f.op);
  }

  /** A string the parser accepts is exactly the name formatted from what it yields. */
  lemma FormatParse(s: string, f: NameFields)
    requires ParseName(s) == Some(f)
    ensures Format(f) == s
  {
    var p0 := SplitSep(s).value;
    var p1 := SplitSep(p0.1).value;
    var p2 := SplitSep(p1.1).value;
    FieldOfParse("n=", p0.0, f.n);
    FieldOfParse("log_q=", p1.0, f.logQ);
    CategoryOfParse(p2.0, f.category);
    assert OpName(f.op) == p2.1;
    FormatPieces(f);
  }

  lemma FormatNameInjective(f: NameFields, g: NameFields)
    requires Format(f) == Format(g)
    ensures f == g
  {
    ParseFormat(f);
    ParseFormat(g);
  }
}
