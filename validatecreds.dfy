/** The request validators of src/middleware/validatecreds.ts: each inspects
    fields of the JSON request body and either answers 400 or passes the
    request on to the next handler. */
module ValidateCreds {

  /** A JSON-decoded JavaScript value, as far as the validators look into it. */
  datatype JsValue =
    | Undefined
    | Null
    | Bool(b: bool)
    | Number(n: real)
    | NotANumber
    | Str(s: string)
    | Obj(fields: map<string, JsValue>)

  /** JavaScript truthiness: `undefined`, `null`, `false`, `0`, `NaN` and `""` are falsy. */
  predicate Truthy(v: JsValue) {
    match v
    case Undefined => false
    case Null => false
    case Bool(b) => b
    case Number(n) => n != 0.0
    case NotANumber => false
    case Str(s) => s != ""
    case Obj(_) => true
  }

  /** `typeof v === "number"`. */
  predicate IsNumber(v: JsValue) {
    v.Number? || v.NotANumber?
  }

  /** `typeof v === "string"`. */
  predicate IsString(v: JsValue) {
    v.Str?
  }

  /** `v.name` on a value that is not `undefined` or `null`: an own field of
      an object, and `undefined` otherwise. */
  function Property(v: JsValue, name: string): JsValue {
    if v.Obj? && name in v.fields then v.fields[name] else Undefined
  }

  /** `req.body` and the destructuring of one of its fields. */
  type Body = map<string, JsValue>

  function Field(body: Body, name: string): JsValue {
    if name in body then body[name] else Undefined
  }

  /** What a middleware does: answer with a status and an error text, or call `next()`. */
  datatype MiddlewareOutcome = Reject(status: int, error: string) | Next

  const MissingCredentials := "Missing required AWS credentials"

  /** `validateCredentials`. */
  function ValidateCredentials(body: Body): MiddlewareOutcome {
    if !Truthy(Field(body, "accessKeyId")) || !Truthy(Field(body, "secretAccessKey")) || !Truthy(Field(body, "region")) then
      Reject(400, MissingCredentials)
    else Next
  }

  /** The credentials a handler needs are all present. */
  predicate HasCredentials(body: Body) {
    forall name :: name in ["accessKeyId", "secretAccessKey", "region"] ==> Truthy(Field(body, name))
  }

  /** A request passes exactly when all three credential fields are truthy;
      otherwise it is answered 400 and never reaches the handler. */
  lemma ValidateCredentialsIff(body: Body)
    ensures ValidateCredentials(body) == Next <==> HasCredentials(body)
    ensures ValidateCredentials(body) != Next ==> ValidateCredentials(body) == Reject(400, MissingCredentials)
  {
    if !HasCredentials(body) {
      var name :| name in ["accessKeyId", "secretAccessKey", "region"] && !Truthy(Field(body, name));
    }
  }

  const InvalidRecommendationInput :=
    "Missing or invalid required fields. Required: vCPU (number), RAM_GB (number), machine_count (number), "
    + "storage (object with type \"SSD\"|\"HDD\" and size_GB number), region (string), OS (\"Linux\"|\"Windows\"), "
    + "duration (string), usage (string), budget_limit (number|null), workload_type (string), "
    + "preferred_cloud (\"AWS\"|\"Azure\"|\"GCP\"|\"Any\"), billing_model (\"OnDemand\"|\"Reserved\"|\"Spot\"|\"Preemptible\")"

  /** `v !== a && v !== b && ...` is false, i.e. `v` is one of the strings. */
  predicate OneOf(v: JsValue, allowed: seq<string>) {
    v.Str? && v.s in allowed
  }

  /** The storage object: truthy, with a known `type` and a numeric `size_GB`. */
  predicate ValidStorage(storage: JsValue) {
    Truthy(storage) && OneOf(Property(storage, "type"), ["SSD", "HDD"]) && IsNumber(Property(storage, "size_GB"))
  }

  /** `validateCostRecommendationInput`: the disjunction of the fourteen
      rejection conditions, in source order. */
  function ValidateCostRecommendationInput(body: Body): MiddlewareOutcome {
    var storage := Field(body, "storage");
    var budget := Field(body, "budget_limit");
    if !IsNumber(Field(body, "vCPU"))
      || !IsNumber(Field(body, "RAM_GB"))
      || !IsNumber(Field(body, "machine_count"))
      || !Truthy(storage)
      || (Property(storage, "type") != Str("SSD") && Property(storage, "type") != Str("HDD"))
      || !IsNumber(Property(storage, "size_GB"))
      || !IsString(Field(body, "region"))
      || (Field(body, "OS") != Str("Linux") && Field(body, "OS") != Str("Windows"))
      || !IsString(Field(body, "duration"))
      || !IsString(Field(body, "usage"))
      || (budget != Null && !IsNumber(budget))
      || !IsString(Field(body, "workload_type"))
      || (Field(body, "preferred_cloud") != Str("AWS") && Field(body, "preferred_cloud") != Str("Azure")
          && Field(body, "preferred_cloud") != Str("GCP") && Field(body, "preferred_cloud") != Str("Any"))
      || (Field(body, "billing_model") != Str("OnDemand") && Field(body, "billing_model") != Str("Reserved")
          && Field(body, "billing_model") != Str("Spot") && Field(body, "billing_model") != Str("Preemptible"))
    then Reject(400, InvalidRecommendationInput)
    else Next
  }

  /** The documented schema of the recommendation input, one rule per field. */
  datatype Rule = NumberRule | StringRule | NumberOrNullRule | StorageRule | EnumRule(allowed: seq<string>)

  const RecommendationSchema: seq<(string, Rule)> := [
    ("vCPU", NumberRule), ("RAM_GB", NumberRule), ("machine_count", NumberRule),
    ("storage", StorageRule), ("region", StringRule), ("OS", EnumRule(["Linux", "Windows"])),
    ("duration", StringRule), ("usage", StringRule), ("budget_limit", NumberOrNullRule),
    ("workload_type", StringRule), ("preferred_cloud", EnumRule(["AWS", "Azure", "GCP", "Any"])),
    ("billing_model", EnumRule(["OnDemand", "Reserved", "Spot", "Preemptible"]))]

  predicate Satisfies(v: JsValue, rule: Rule) {
    match rule
    case NumberRule => IsNumber(v)
    case StringRule => IsString(v)
    case NumberOrNullRule => v == Null || IsNumber(v)
    case StorageRule => ValidStorage(v)
    case EnumRule(allowed) => OneOf(v, allowed)
  }

  predicate Conforms(body: Body) {
    forall i :: 0 <= i < |RecommendationSchema| ==> Satisfies(Field(body, RecommendationSchema[i].0), RecommendationSchema[i].1)
  }

  /** The schema's rules for the machine being priced, written out one by one. */
  predicate MachineFieldsValid(body: Body) {
    Satisfies(Field(body, "vCPU"), NumberRule)
    && Satisfies(Field(body, "RAM_GB"), NumberRule)
    && Satisfies(Field(body, "machine_count"), NumberRule)
    && Satisfies(Field(body, "storage"), StorageRule)
    && Satisfies(Field(body, "region"), StringRule)
    && Satisfies(Field(body, "OS"), EnumRule(["Linux", "Windows"]))
  }

  /** The schema's rules for the pricing plan, written out one by one. */
  predicate PlanFieldsValid(body: Body) {
    Satisfies(Field(body, "duration"), StringRule)
    && Satisfies(Field(body, "usage"), StringRule)
    && Satisfies(Field(body, "budget_limit"), NumberOrNullRule)
    && Satisfies(Field(body, "workload_type"), StringRule)
    && Satisfies(Field(body, "preferred_cloud"), EnumRule(["AWS", "Azure", "GCP", "Any"]))
    && Satisfies(Field(body, "billing_model"), EnumRule(["OnDemand", "Reserved", "Spot", "Preemptible"]))
  }

  lemma ConformsMachineFields(body: Body)
    requires Conforms(body)
    ensures MachineFieldsValid(body)
  {
    assert Satisfies(Field(body, "vCPU"), NumberRule) by { assert RecommendationSchema[0] == ("vCPU", NumberRule); }
    assert Satisfies(Field(body, "RAM_GB"), NumberRule) by { assert RecommendationSchema[1] == ("RAM_GB", NumberRule); }
    assert Satisfies(Field(body, "machine_count"), NumberRule) by { assert RecommendationSchema[2].0 == "machine_count"; }
    assert Satisfies(Field(body, "storage"), StorageRule) by { assert RecommendationSchema[3].0 == "storage"; }
    assert Satisfies(Field(body, "region"), StringRule) by { assert RecommendationSchema[4].0 == "region"; }
    assert Satisfies(Field(body, "OS"), EnumRule(["Linux", "Windows"])) by { assert RecommendationSchema[5].0 == "OS"; }
  }

  lemma ConformsPlanFields(body: Body)
    requires Conforms(body)
    ensures PlanFieldsValid(body)
  {
    assert Satisfies(Field(body, "duration"), StringRule) by { assert RecommendationSchema[6].0 == "duration"; }
    assert Satisfies(Field(body, "usage"), StringRule) by { assert RecommendationSchema[7].0 == "usage"; }
    assert Satisfies(Field(body, "budget_limit"), NumberOrNullRule) by { assert RecommendationSchema[8].0 == "budget_limit"; }
    assert Satisfies(Field(body, "workload_type"), StringRule) by { assert RecommendationSchema[9].0 == "workload_type"; }
    assert Satisfies(Field(body, "preferred_cloud"), EnumRule(["AWS", "Azure", "GCP", "Any"])) by { assert RecommendationSchema[10].0 == "preferred_cloud"; }
    assert Satisfies(Field(body, "billing_model"), EnumRule(["OnDemand", "Reserved", "Spot", "Preemptible"])) by { assert RecommendationSchema[11].0 == "billing_model"; }
  }

  lemma FieldsConform(body: Body)
    requires MachineFieldsValid(body) && PlanFieldsValid(body)
    ensures Conforms(body)
  {
    forall i | 0 <= i < |RecommendationSchema|
      ensures Satisfies(Field(body, RecommendationSchema[i].0), RecommendationSchema[i].1)
    {
      if i < 6 {
        assert i == 0 || i == 1 || i == 2 || i == 3 || i == 4 || i == 5;
      } else {
        assert i == 6 || i == 7 || i == 8 || i == 9 || i == 10 || i == 11;
      }
    }
  }

  /** The fourteen rejection conditions fail exactly when the twelve rules hold. */
  lemma FieldsValidAccepted(body: Body)
    requires MachineFieldsValid(body) && PlanFieldsValid(body)
    ensures ValidateCostRecommendationInput(body) == Next
  {
  }

  lemma AcceptedFieldsValid(body: Body)
    requires ValidateCostRecommendationInput(body) == Next
    ensures MachineFieldsValid(body) && PlanFieldsValid(body)
  {
  }

  /** A body that follows the schema gets past every rejection condition. */
  lemma ConformingInputAccepted(body: Body)
    requires Conforms(body)
    ensures ValidateCostRecommendationInput(body) == Next
  {
    ConformsMachineFields(body);
    ConformsPlanFields(body);
    FieldsValidAccepted(body);
  }

  /** A body that gets past every rejection condition follows the schema. */
  lemma AcceptedInputConforms(body: Body)
    requires ValidateCostRecommendationInput(body) == Next
    ensures Conforms(body)
  {
    AcceptedFieldsValid(body);
    FieldsConform(body);
  }

  /** The validator passes a body exactly when every field satisfies its
      rule in the schema, and answers 400 with the schema text otherwise. */
  lemma RecommendationInputIff(body: Body)
    ensures ValidateCostRecommendationInput(body) == Next <==> Conforms(body)
    ensures ValidateCostRecommendationInput(body) != Next ==>
      ValidateCostRecommendationInput(body) == Reject(400, InvalidRecommendationInput)
  {
    if Conforms(body) {
      ConformingInputAccepted(body);
    }
    if ValidateCostRecommendationInput(body) == Next {
      AcceptedInputConforms(body);
    }
  }

  /** What an accepted body guarantees to the recommendation handler. */
  lemma AcceptedRecommendationInput(body: Body)
    requires ValidateCostRecommendationInput(body) == Next
    ensures Property(Field(body, "storage"), "type") in {Str("SSD"), Str("HDD")}
    ensures IsNumber(Property(Field(body, "storage"), "size_GB"))
    ensures Field(body, "OS") in {Str("Linux"), Str("Windows")}
    ensures Field(body, "preferred_cloud") in {Str("AWS"), Str("Azure"), Str("GCP"), Str("Any")}
    ensures Field(body, "billing_model") in {Str("OnDemand"), Str("Reserved"), Str("Spot"), Str("Preemptible")}
    ensures Field(body, "budget_limit") == Null || IsNumber(Field(body, "budget_limit"))
  {
  }
}
