/** The schema the plan-creation route validates its JSON body with: a
    name of 1 to 100 characters (stored trimmed), a price between 0.01 and
    99999.99, an optional or null whole monthly service limit of at least
    1, and non-empty features. Each failed check contributes one
    "path: message" detail, in field order and, within a field, in the
    order the checks are declared. */
module PlanSchema {
  import opened Common

  /** A JSON value as the body holds it; `JMissing` is an absent key. */
  datatype Json = JMissing | JNull | JBool(b: bool) | JNumber(n: real) | JString(s: string) | JArray | JObject

  datatype PlanBody = PlanBody(name: Json, price: Json, maxServicesPerMonth: Json, features: Json)

  /** The validated data: the trimmed name and the checked values. */
  datatype PlanData = PlanData(name: string, price: real, maxServicesPerMonth: Option<int>, features: string)

  datatype Validation = Parsed(data: PlanData) | Rejected(issues: seq<string>)

  const MinPrice: real := 0.01
  const MaxPrice: real := 99999.99
  const MaxNameLength: nat := 100

  /** The type name the validator reports for a value it did not expect. */
  function TypeName(v: Json): string
  {
    match v
    case JMissing => "undefined"
    case JNull => "null"
    case JBool(_) => "boolean"
    case JNumber(_) => "number"
    case JString(_) => "string"
    case JArray => "array"
    case JObject => "object"
  }

  /** The message for a value of the wrong type: "Required" when absent. */
  function TypeMessage(expected: string, v: Json): string
  {
    if v.JMissing? then "Required" else "Expected " + expected + ", received " + TypeName(v)
  }

  predicate IsWhole(x: real) { x.Floor as real == x }

  function NameIssues(v: Json): (issues: seq<string>)
    ensures issues == [] <==> v.JString? && 1 <= |v.s| <= MaxNameLength
  {
    match v
    case JString(s) =>
      (if |s| < 1 then ["name: Nome do plano é obrigatório"] else [])
      + (if |s| > MaxNameLength then ["name: Nome deve ter no máximo 100 caracteres"] else [])
    case _ => ["name: " + TypeMessage("string", v)]
  }

  function PriceIssues(v: Json): (issues: seq<string>)
    ensures issues == [] <==> v.JNumber? && MinPrice <= v.n <= MaxPrice
  {
    match v
    case JNumber(n) =>
      (if n < MinPrice then ["price: Preço deve ser maior que zero"] else [])
      + (if n > MaxPrice then ["price: Preço muito alto"] else [])
    case _ => ["price: " + TypeMessage("number", v)]
  }

  function MaxServicesIssues(v: Json): (issues: seq<string>)
    ensures issues == [] <==> v.JMissing? || v.JNull? || (v.JNumber? && IsWhole(v.n) && v.n >= 1.0)
  {
    match v
    case JMissing => []
    case JNull => []
    case JNumber(n) =>
      (if !IsWhole(n) then ["max_services_per_month: Deve ser um número inteiro"] else [])
      + (if n < 1.0 then ["max_services_per_month: Deve ser pelo menos 1"] else [])
    case _ => ["max_services_per_month: " + TypeMessage("number", v)]
  }

  function FeaturesIssues(v: Json): (issues: seq<string>)
    ensures issues == [] <==> v.JString? && v.s != ""
  {
    match v
    case JString(s) => if |s| < 1 then ["features: Funcionalidades são obrigatórias"] else []
    case _ => ["features: " + TypeMessage("string", v)]
  }

  /** Every issue of the body, in field order. */
  function Issues(b: PlanBody): seq<string>
  {
    NameIssues(b.name) + PriceIssues(b.price) + MaxServicesIssues(b.maxServicesPerMonth)
    + FeaturesIssues(b.features)
  }

  /** safeParse: the data when every check passes, else every issue. The
      length checks see the name as sent; trimming happens after them. */
  function Validate(b: PlanBody): Validation
  {
    if Issues(b) != [] then Rejected(Issues(b))
    else
      var limit := if b.maxServicesPerMonth.JNumber? then Some(b.maxServicesPerMonth.n.Floor) else None;
      Parsed(PlanData(Trim(b.name.s), b.price.n, limit, b.features.s))
  }

  /** The body is rejected exactly when some check fails, with every issue
      reported. */
  lemma ValidateRejects(b: PlanBody)
    ensures Validate(b).Rejected? <==> Issues(b) != []
    ensures Validate(b).Rejected? ==> Validate(b).issues == Issues(b)
    ensures Validate(b).Parsed? <==>
      && b.name.JString? && 1 <= |b.name.s| <= MaxNameLength
      && b.price.JNumber? && MinPrice <= b.price.n <= MaxPrice
      && (b.maxServicesPerMonth.JMissing? || b.maxServicesPerMonth.JNull?
          || (b.maxServicesPerMonth.JNumber? && IsWhole(b.maxServicesPerMonth.n) && b.maxServicesPerMonth.n >= 1.0))
      && b.features.JString? && b.features.s != ""
  {
    assert Issues(b) == [] <==>
      NameIssues(b.name) == [] && PriceIssues(b.price) == []
      && MaxServicesIssues(b.maxServicesPerMonth) == [] && FeaturesIssues(b.features) == [];
  }

  /** What a body that passes looks like, and what the validated data holds:
      the name as sent has 1 to 100 characters and is stored trimmed, the
      price is in range, the limit is absent or a whole number of at least
      1, and the features are non-empty. */
  lemma ParsedData(b: PlanBody)
    requires Validate(b).Parsed?
    ensures var d := Validate(b).data;
      && b.name.JString? && 1 <= |b.name.s| <= MaxNameLength && d.name == Trim(b.name.s)
      && b.price.JNumber? && d.price == b.price.n && MinPrice <= d.price <= MaxPrice
      && (b.maxServicesPerMonth.JMissing? || b.maxServicesPerMonth.JNull? <==> d.maxServicesPerMonth.None?)
      && (d.maxServicesPerMonth.Some? ==>
            d.maxServicesPerMonth.value >= 1 && d.maxServicesPerMonth.value as real == b.maxServicesPerMonth.n)
      && b.features.JString? && d.features == b.features.s && d.features != ""
  {
    assert Issues(b) == [];
    assert NameIssues(b.name) == [] && PriceIssues(b.price) == [];
    assert MaxServicesIssues(b.maxServicesPerMonth) == [] && FeaturesIssues(b.features) == [];
  }

  /** Because the length checks run before trimming, a name of blanks passes
      and is stored as the empty string. */
  lemma BlankNameStoredEmpty()
    ensures var b := PlanBody(JString("   "), JNumber(10.0), JMissing, JString("Cortes"));
      Validate(b) == Parsed(PlanData("", 10.0, None, "Cortes"))
  {
    var b := PlanBody(JString("   "), JNumber(10.0), JMissing, JString("Cortes"));
    assert Issues(b) == [];
    TrimEmptyIff("   ");
  }

  /** The checks on a field do not stop at the first failure: a limit of 0.5
      is reported both as not whole and as below 1. */
  lemma FractionalLimitTwoIssues()
    ensures Validate(PlanBody(JString("Basic"), JNumber(10.0), JNumber(0.5), JString("Cortes")))
      == Rejected(["max_services_per_month: Deve ser um número inteiro",
                   "max_services_per_month: Deve ser pelo menos 1"])
  {
    assert !IsWhole(0.5) by {
      assert (0.5).Floor == 0;
    }
  }

  /** An empty body is rejected with one "Required" detail per field except
      the optional limit. */
  lemma EmptyBodyIssues()
    ensures Validate(PlanBody(JMissing, JMissing, JMissing, JMissing))
      == Rejected(["name: Required", "price: Required", "features: Required"])
  {
    var b := PlanBody(JMissing, JMissing, JMissing, JMissing);
    assert "name: " + "Required" == "name: Required";
    assert "price: " + "Required" == "price: Required";
    assert "features: " + "Required" == "features: Required";
    assert NameIssues(b.name) == ["name: Required"];
    assert PriceIssues(b.price) == ["price: Required"];
    assert MaxServicesIssues(b.maxServicesPerMonth) == [];
    assert FeaturesIssues(b.features) == ["features: Required"];
  }
}
