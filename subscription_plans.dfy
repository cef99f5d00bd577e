/** The plan catalog: plans read lazily from configuration into a process-wide
    cache, first-match lookups, the checkout projections and the validator. */
module SubscriptionPlans {
  import opened Common

  datatype Interval = Month | Year

  /** A feature limit is either free text or a number. */
  datatype FeatureLimit = LimitText(text: string) | LimitCount(count: int)

  datatype Feature = Feature(name: string, included: bool, limit: Option<FeatureLimit>)

  /** A plan as configuration supplies it. The catalog is hand-written JSON, so
      the four fields the validator checks for presence may be absent or null
      (both None), and the price may be something other than an integer (None).
      Prices are in minor currency units. */
  datatype Plan = Plan(
    id: Option<string>,
    name: Option<string>,
    slug: Option<string>,
    description: string,
    price: Option<int>,
    currency: string,
    interval: Interval,
    productId: Option<string>,
    features: seq<Feature>,
    popular: Option<bool>,
    buttonText: Option<string>)

  datatype PlanField = IdField | NameField | SlugField | ProductIdField

  function FieldValue(p: Plan, f: PlanField): Option<string> {
    match f
    case IdField => p.id
    case NameField => p.name
    case SlugField => p.slug
    case ProductIdField => p.productId
  }

  // ---------------------------------------------------------------------------
  // Configuration

  /** What `JSON.parse` made of the plans variable: the variable is unset or
      empty, the text is not JSON, it is an array of plan objects, or it is a
      single plan object. */
  datatype PlansJson = Unset | Malformed | JsonArray(plans: seq<Plan>) | JsonValue(plan: Plan)

  /** The three configuration variables the catalog reads. */
  datatype Env = Env(plansJson: PlansJson, starterTier: Option<string>, starterSlug: Option<string>)

  /** The single plan built from the legacy tier and slug variables. */
  function LegacyPlan(tier: string, slug: string): (p: Plan)
    ensures p.productId == Some(tier) && p.slug == Some(slug)
    ensures tier != "" && slug != "" ==> PlanComplete(p)
  {
    Plan(
      Some("starter"), Some("Starter"), Some(slug), "Perfect for getting started",
      Some(1000), "USD", Month, Some(tier),
      [ Feature("5 Projects", true, None),
        Feature("10GB Storage", true, None),
        Feature("1 Team Member", true, Some(LimitCount(1))),
        Feature("Email Support", true, None) ],
      None, Some("Get Started"))
  }

  /** The plan list a configuration denotes. A parsed array is taken as it is
      (even when empty), a single parsed value becomes a one-plan list, and
      otherwise the legacy starter plan is used when both legacy values are set. */
  function ConfiguredPlans(env: Env): (r: seq<Plan>)
    ensures env.plansJson.JsonArray? ==> r == env.plansJson.plans
    ensures env.plansJson.JsonValue? ==> r == [env.plansJson.plan]
    ensures env.plansJson.Unset? || env.plansJson.Malformed? ==>
      && |r| <= 1
      && (r != [] <==> Truthy(env.starterTier) && Truthy(env.starterSlug))
      && (r != [] ==>
            && r[0].id == Some("starter")
            && r[0].price == Some(1000)
            && r[0].productId == env.starterTier
            && r[0].slug == env.starterSlug)
  {
    match env.plansJson
    case JsonArray(plans) => plans
    case JsonValue(plan) => [plan]
    case _ =>
      if Truthy(env.starterTier) && Truthy(env.starterSlug)
      then [LegacyPlan(env.starterTier.value, env.starterSlug.value)]
      else []
  }

  /** Reads the configuration: returns the parsed JSON when there is some,
      otherwise pushes the legacy plan when both legacy values are set. */
  method ParseSubscriptionPlansFromEnv(env: Env) returns (plans: seq<Plan>)
    ensures plans == ConfiguredPlans(env)
  {
    plans := [];
    match env.plansJson {
      case JsonArray(parsed) =>
        return parsed;
      case JsonValue(parsed) =>
        return [parsed];
      case _ =>
    }
    if Truthy(env.starterTier) && Truthy(env.starterSlug) {
      plans := plans + [LegacyPlan(env.starterTier.value, env.starterSlug.value)];
    }
  }

  // ---------------------------------------------------------------------------
  // Lookups and projections

  /** Index of the first plan whose field `f` equals `value`. */
  function FirstIndex(plans: seq<Plan>, f: PlanField, value: string): (k: Option<nat>)
    ensures k.Some? ==> k.value < |plans| && FieldValue(plans[k.value], f) == Some(value)
    ensures k.Some? ==> forall j :: 0 <= j < k.value ==> FieldValue(plans[j], f) != Some(value)
    ensures k.None? ==> forall j :: 0 <= j < |plans| ==> FieldValue(plans[j], f) != Some(value)
    decreases |plans|
  {
    if plans == [] then None
    else if FieldValue(plans[0], f) == Some(value) then Some(0)
    else match FirstIndex(plans[1..], f, value)
      case None => None
      case Some(k) => Some(k + 1)
  }

  /** Lookup by one field: the first plan in list order whose
      field matches, or none when no plan matches. */
  function FindPlan(plans: seq<Plan>, f: PlanField, value: string): (r: Option<Plan>)
    ensures r.None? <==> forall j :: 0 <= j < |plans| ==> FieldValue(plans[j], f) != Some(value)
    ensures r.Some? ==>
      exists k :: 0 <= k < |plans| && plans[k] == r.value && FieldValue(plans[k], f) == Some(value)
        && forall j :: 0 <= j < k ==> FieldValue(plans[j], f) != Some(value)
  {
    match FirstIndex(plans, f, value)
    case None => None
    case Some(k) => Some(plans[k])
  }

  /** The product id of every plan, in catalog order. */
  function ProductIds(plans: seq<Plan>): (r: seq<Option<string>>)
    ensures |r| == |plans|
    ensures forall i :: 0 <= i < |plans| ==> r[i] == plans[i].productId
  {
    seq(|plans|, i requires 0 <= i < |plans| => plans[i].productId)
  }

  /** A checkout product: a plan's product id with that plan's slug. */
  datatype CheckoutProduct = CheckoutProduct(productId: Option<string>, slug: Option<string>)

  /** One checkout product per plan, in catalog order. */
  function ProductsForCheckout(plans: seq<Plan>): (r: seq<CheckoutProduct>)
    ensures |r| == |plans|
    ensures forall i :: 0 <= i < |plans| ==>
      r[i].productId == plans[i].productId && r[i].slug == plans[i].slug
  {
    seq(|plans|, i requires 0 <= i < |plans| => CheckoutProduct(plans[i].productId, plans[i].slug))
  }

  // ---------------------------------------------------------------------------
  // Validation

  /** The three fields that must be unique across the catalog, in the order the
      validator checks them. */
  datatype UniqueKey = ProductIdKey | SlugKey | PlanIdKey

  function KeyField(key: UniqueKey): PlanField {
    match key
    case ProductIdKey => ProductIdField
    case SlugKey => SlugField
    case PlanIdKey => IdField
  }

  /** One validator message; each constructor stands for one message template. */
  datatype ValidationError =
    | NoPlansConfigured
    | MissingField(index: nat, field: PlanField)
    | InvalidPrice(index: nat)
    | Duplicate(key: UniqueKey, value: Option<string>)

  /** A price is valid when it is a number greater than zero. */
  predicate ValidPrice(price: Option<int>) {
    price.Some? && price.value > 0
  }

  /** The values of `key` among the first `n` plans: the validator's "seen" set. */
  function Seen(plans: seq<Plan>, n: nat, key: UniqueKey): set<Option<string>>
    requires n <= |plans|
  {
    if n == 0 then {} else Seen(plans, n - 1, key) + {FieldValue(plans[n - 1], KeyField(key))}
  }

  /** The checks the validator runs on every plan. */
  datatype Check = Present(field: PlanField) | PositivePrice | Unique(key: UniqueKey)

  /** The order in which the checks run on one plan. */
  const CheckOrder: seq<Check> := [
    Present(IdField), Present(NameField), Present(SlugField), Present(ProductIdField),
    PositivePrice, Unique(ProductIdKey), Unique(SlugKey), Unique(PlanIdKey)
  ]

  /** Where a check stands in that order; every check runs exactly once. */
  function Position(check: Check): (k: nat)
    ensures k < |CheckOrder| && CheckOrder[k] == check
  {
    match check
    case Present(IdField) => 0
    case Present(NameField) => 1
    case Present(SlugField) => 2
    case Present(ProductIdField) => 3
    case PositivePrice => 4
    case Unique(ProductIdKey) => 5
    case Unique(SlugKey) => 6
    case Unique(PlanIdKey) => 7
  }

  /** The check a message comes from. */
  function Owner(e: ValidationError): Option<Check> {
    match e
    case NoPlansConfigured => None
    case MissingField(_, f) => Some(Present(f))
    case InvalidPrice(_) => Some(PositivePrice)
    case Duplicate(key, _) => Some(Unique(key))
  }

  /** The message one check produces for the plan at index `i`, if any. A
      duplicate is a value already in the seen set of the plans before `i`. */
  function CheckResult(plans: seq<Plan>, i: nat, check: Check): (r: Option<ValidationError>)
    requires i < |plans|
    ensures r.Some? ==> Owner(r.value) == Some(check)
  {
    match check
    case Present(f) =>
      if Truthy(FieldValue(plans[i], f)) then None else Some(MissingField(i, f))
    case PositivePrice =>
      if ValidPrice(plans[i].price) then None else Some(InvalidPrice(i))
    case Unique(key) =>
      var v := FieldValue(plans[i], KeyField(key));
      if v in Seen(plans, i, key) then Some(Duplicate(key, v)) else None
  }

  function Emitted(o: Option<ValidationError>): seq<ValidationError> {
    if o.Some? then [o.value] else []
  }

  /** The messages collected by running the first `n` checks of `CheckOrder`
      on the plan at index `i`. */
  function Run(plans: seq<Plan>, i: nat, n: nat): seq<ValidationError>
    requires i < |plans| && n <= |CheckOrder|
  {
    if n == 0 then [] else Run(plans, i, n - 1) + Emitted(CheckResult(plans, i, CheckOrder[n - 1]))
  }

  /** The messages the validator collects for the plan at index `i`. */
  function PlanErrors(plans: seq<Plan>, i: nat): seq<ValidationError>
    requires i < |plans|
  {
    Run(plans, i, |CheckOrder|)
  }

  /** The message collected before any plan is looked at. */
  function Preamble(plans: seq<Plan>): seq<ValidationError> {
    if |plans| == 0 then [NoPlansConfigured] else []
  }

  /** Each plan's messages, in catalog order. */
  function PlanErrorLists(plans: seq<Plan>): (r: seq<seq<ValidationError>>)
    ensures |r| == |plans|
  {
    seq(|plans|, i requires 0 <= i < |plans| => PlanErrors(plans, i))
  }

  /** Every message the validator collects for a catalog, in order. */
  function ValidationErrors(plans: seq<Plan>): seq<ValidationError> {
    Concat(Preamble(plans), PlanErrorLists(plans))
  }

  /** The presence and price checks of the per-plan callback. */
  method CheckFields(plans: seq<Plan>, index: nat) returns (found: seq<ValidationError>)
    requires index < |plans|
    ensures found == Run(plans, index, 5)
  {
    var plan := plans[index];
    found := [];
    if !Truthy(plan.id) { found := found + [MissingField(index, IdField)]; }
    assert found == Run(plans, index, 1);
    if !Truthy(plan.name) { found := found + [MissingField(index, NameField)]; }
    assert found == Run(plans, index, 2);
    if !Truthy(plan.slug) { found := found + [MissingField(index, SlugField)]; }
    assert found == Run(plans, index, 3);
    if !Truthy(plan.productId) { found := found + [MissingField(index, ProductIdField)]; }
    assert found == Run(plans, index, 4);
    if !ValidPrice(plan.price) { found := found + [InvalidPrice(index)]; }
  }

  /** The duplicate checks of the per-plan callback: each key is looked up in
      the set of values seen so far and recorded there when new. */
  method CheckDuplicates(plans: seq<Plan>, index: nat, found: seq<ValidationError>,
                         productIds: set<Option<string>>, slugs: set<Option<string>>,
                         planIds: set<Option<string>>)
    returns (all: seq<ValidationError>, productIds': set<Option<string>>,
             slugs': set<Option<string>>, planIds': set<Option<string>>)
    requires index < |plans|
    requires found == Run(plans, index, 5)
    requires productIds == Seen(plans, index, ProductIdKey)
    requires slugs == Seen(plans, index, SlugKey)
    requires planIds == Seen(plans, index, PlanIdKey)
    ensures all == PlanErrors(plans, index)
    ensures productIds' == Seen(plans, index + 1, ProductIdKey)
    ensures slugs' == Seen(plans, index + 1, SlugKey)
    ensures planIds' == Seen(plans, index + 1, PlanIdKey)
  {
    var plan := plans[index];
    all, productIds', slugs', planIds' := found, productIds, slugs, planIds;
    if plan.productId in productIds' {
      all := all + [Duplicate(ProductIdKey, plan.productId)];
    } else {
      productIds' := productIds' + {plan.productId};
    }
    assert all == Run(plans, index, 6);
    if plan.slug in slugs' {
      all := all + [Duplicate(SlugKey, plan.slug)];
    } else {
      slugs' := slugs' + {plan.slug};
    }
    assert all == Run(plans, index, 7);
    if plan.id in planIds' {
      all := all + [Duplicate(PlanIdKey, plan.id)];
    } else {
      planIds' := planIds' + {plan.id};
    }
  }

  /** Walks the catalog once with three seen-sets, collecting messages;
      the catalog is valid exactly when no message was collected. */
  method ValidatePlans(plans: seq<Plan>) returns (valid: bool, errors: seq<ValidationError>)
    ensures errors == ValidationErrors(plans)
    ensures valid <==> errors == []
  {
    errors := [];
    if |plans| == 0 {
      errors := errors + [NoPlansConfigured];
    }
    assert PlanErrorLists(plans)[..0] == [];
    var productIds: set<Option<string>> := {};
    var slugs: set<Option<string>> := {};
    var planIds: set<Option<string>> := {};
    var index := 0;
    while index < |plans|
      invariant 0 <= index <= |plans|
      invariant errors == Concat(Preamble(plans), PlanErrorLists(plans)[..index])
      invariant productIds == Seen(plans, index, ProductIdKey)
      invariant slugs == Seen(plans, index, SlugKey)
      invariant planIds == Seen(plans, index, PlanIdKey)
    {
      var found := CheckFields(plans, index);
      found, productIds, slugs, planIds := CheckDuplicates(plans, index, found, productIds, slugs, planIds);
      ConcatPrefix(Preamble(plans), PlanErrorLists(plans), index);
      errors := errors + found;
      index := index + 1;
    }
    assert PlanErrorLists(plans)[..|plans|] == PlanErrorLists(plans);
    valid := |errors| == 0;
  }

  // ---------------------------------------------------------------------------
  // What validation guarantees

  /** A plan with every checked field present and a positive price. */
  predicate PlanComplete(p: Plan) {
    Truthy(p.id) && Truthy(p.name) && Truthy(p.slug) && Truthy(p.productId) && ValidPrice(p.price)
  }

  /** A non-empty catalog of complete plans whose ids, slugs and product ids
      are pairwise distinct. */
  predicate WellFormed(plans: seq<Plan>) {
    && |plans| > 0
    && (forall i :: 0 <= i < |plans| ==> PlanComplete(plans[i]))
    && (forall i, j :: 0 <= i < j < |plans| ==>
          && plans[i].id != plans[j].id
          && plans[i].slug != plans[j].slug
          && plans[i].productId != plans[j].productId)
  }

  lemma {:induction false} SeenMembers(plans: seq<Plan>, n: nat, key: UniqueKey, v: Option<string>)
    requires n <= |plans|
    ensures v in Seen(plans, n, key) <==> exists j :: 0 <= j < n && FieldValue(plans[j], KeyField(key)) == v
  {
    if n > 0 {
      SeenMembers(plans, n - 1, key, v);
    }
  }

  lemma {:induction false} RunEmpty(plans: seq<Plan>, i: nat, n: nat)
    requires i < |plans| && n <= |CheckOrder|
    ensures Run(plans, i, n) == [] <==> forall k :: 0 <= k < n ==> CheckResult(plans, i, CheckOrder[k]).None?
  {
    if n > 0 {
      RunEmpty(plans, i, n - 1);
    }
  }

  /** A plan draws no message exactly when it is complete and no earlier plan
      shares its id, slug or product id. */
  lemma PlanErrorsEmpty(plans: seq<Plan>, i: nat)
    requires i < |plans|
    ensures PlanErrors(plans, i) == [] <==>
      && PlanComplete(plans[i])
      && forall j :: 0 <= j < i ==>
           && plans[j].id != plans[i].id
           && plans[j].slug != plans[i].slug
           && plans[j].productId != plans[i].productId
  {
    RunEmpty(plans, i, |CheckOrder|);
    var p := plans[i];
    SeenMembers(plans, i, ProductIdKey, p.productId);
    SeenMembers(plans, i, SlugKey, p.slug);
    SeenMembers(plans, i, PlanIdKey, p.id);
    if PlanErrors(plans, i) == [] {
      assert CheckResult(plans, i, CheckOrder[0]).None?;
      assert CheckResult(plans, i, CheckOrder[1]).None?;
      assert CheckResult(plans, i, CheckOrder[2]).None?;
      assert CheckResult(plans, i, CheckOrder[3]).None?;
      assert CheckResult(plans, i, CheckOrder[4]).None?;
      forall j | 0 <= j < i
        ensures plans[j].id != p.id && plans[j].slug != p.slug && plans[j].productId != p.productId
      {
        assert CheckResult(plans, i, CheckOrder[5]).None?;
        assert CheckResult(plans, i, CheckOrder[6]).None?;
        assert CheckResult(plans, i, CheckOrder[7]).None?;
      }
    }
  }

  /** The validator reports no message exactly for the well-formed catalogs:
      `valid` holds iff the catalog is non-empty, every plan is complete and
      no id, slug or product id repeats. */
  lemma ValidIffWellFormed(plans: seq<Plan>)
    ensures ValidationErrors(plans) == [] <==> WellFormed(plans)
  {
    var parts := PlanErrorLists(plans);
    ConcatEmpty(Preamble(plans), parts);
    forall i | 0 <= i < |plans|
      ensures parts[i] == [] <==> PlanComplete(plans[i]) && forall j :: 0 <= j < i ==>
        plans[j].id != plans[i].id && plans[j].slug != plans[i].slug && plans[j].productId != plans[i].productId
    {
      PlanErrorsEmpty(plans, i);
    }
  }

  /** Whether the plan at index `i` draws message `e`: only from the check
      that owns `e`. */
  predicate Reported(plans: seq<Plan>, i: nat, e: ValidationError)
    requires i < |plans|
  {
    Owner(e).Some? && CheckResult(plans, i, Owner(e).value) == Some(e)
  }

  lemma PositionOfCheckOrder(k: nat)
    requires k < |CheckOrder|
    ensures Position(CheckOrder[k]) == k
  {
  }

  /** Running the first `n` checks collects message `e` at most once, and
      exactly once when the check owning `e` is among them and produces it. */
  lemma {:induction false} RunCount(plans: seq<Plan>, i: nat, n: nat, e: ValidationError)
    requires i < |plans| && n <= |CheckOrder|
    ensures multiset(Run(plans, i, n))[e] ==
      if Owner(e).Some? && Position(Owner(e).value) < n && CheckResult(plans, i, Owner(e).value) == Some(e) then 1 else 0
  {
    if n > 0 {
      RunCount(plans, i, n - 1, e);
      PositionOfCheckOrder(n - 1);
    }
  }

  /** One plan draws a given message at most once, and exactly when the check
      owning that message produces it. */
  lemma PlanErrorsCount(plans: seq<Plan>, i: nat, e: ValidationError)
    requires i < |plans|
    ensures multiset(PlanErrors(plans, i))[e] == if Reported(plans, i, e) then 1 else 0
  {
    RunCount(plans, i, |CheckOrder|, e);
  }

  /** Which plans draw message `e`, in catalog order. */
  function Marks(plans: seq<Plan>, e: ValidationError): (r: seq<bool>)
    ensures |r| == |plans|
  {
    seq(|plans|, i requires 0 <= i < |plans| => Reported(plans, i, e))
  }

  /** The validator's output holds message `e` once for each plan that draws
      it, plus the "no plans" message for an empty catalog. */
  lemma ValidationCount(plans: seq<Plan>, e: ValidationError)
    ensures multiset(ValidationErrors(plans))[e] == multiset(Preamble(plans))[e] + CountTrue(Marks(plans, e))
  {
    var parts := PlanErrorLists(plans);
    var marks := Marks(plans, e);
    forall k | 0 <= k < |parts|
      ensures multiset(parts[k])[e] == if marks[k] then 1 else 0
    {
      PlanErrorsCount(plans, k, e);
    }
    ConcatCount(Preamble(plans), parts, e, marks);
  }

  /** An empty catalog gets the "no plans configured" message exactly once,
      and a non-empty one never gets it. */
  lemma NoPlansReported(plans: seq<Plan>)
    ensures multiset(ValidationErrors(plans))[NoPlansConfigured] == if plans == [] then 1 else 0
  {
    ValidationCount(plans, NoPlansConfigured);
    CountTrueSingle(Marks(plans, NoPlansConfigured), 0);
  }

  /** A plan whose id, name, slug or product id is missing or empty gets exactly
      one message naming its index and that field; no other message names it. */
  lemma MissingFieldReported(plans: seq<Plan>, i: nat, f: PlanField)
    ensures multiset(ValidationErrors(plans))[MissingField(i, f)]
      == if i < |plans| && !Truthy(FieldValue(plans[i], f)) then 1 else 0
  {
    ValidationCount(plans, MissingField(i, f));
    CountTrueSingle(Marks(plans, MissingField(i, f)), i);
  }

  /** A plan whose price is not a positive number gets exactly one "invalid
      price" message for its index. */
  lemma InvalidPriceReported(plans: seq<Plan>, i: nat)
    ensures multiset(ValidationErrors(plans))[InvalidPrice(i)]
      == if i < |plans| && !ValidPrice(plans[i].price) then 1 else 0
  {
    ValidationCount(plans, InvalidPrice(i));
    CountTrueSingle(Marks(plans, InvalidPrice(i)), i);
  }

  /** How many of the first `n` plans have `value` in field `key`. */
  function Occurrences(plans: seq<Plan>, n: nat, key: UniqueKey, value: Option<string>): nat
    requires n <= |plans|
  {
    if n == 0 then 0
    else
      var here := if FieldValue(plans[n - 1], KeyField(key)) == value then 1 else 0;
      Occurrences(plans, n - 1, key, value) + here
  }

  lemma {:induction false} DuplicateMarks(plans: seq<Plan>, n: nat, key: UniqueKey, value: Option<string>)
    requires n <= |plans|
    ensures value in Seen(plans, n, key) <==> Occurrences(plans, n, key, value) > 0
    ensures var occ := Occurrences(plans, n, key, value);
      CountTrue(Marks(plans, Duplicate(key, value))[..n]) == if occ == 0 then 0 else occ - 1
  {
    if n > 0 {
      DuplicateMarks(plans, n - 1, key, value);
      var marks := Marks(plans, Duplicate(key, value));
      assert marks[..n][..n - 1] == marks[..n - 1];
    }
  }

  /** For each unique field, the first plan carrying a value never gets a
      "duplicate" message for it, and every later plan carrying the same value
      adds exactly one. */
  lemma DuplicateReported(plans: seq<Plan>, key: UniqueKey, value: Option<string>)
    ensures var occ := Occurrences(plans, |plans|, key, value);
      multiset(ValidationErrors(plans))[Duplicate(key, value)] == if occ == 0 then 0 else occ - 1
  {
    ValidationCount(plans, Duplicate(key, value));
    DuplicateMarks(plans, |plans|, key, value);
    assert Marks(plans, Duplicate(key, value))[..|plans|] == Marks(plans, Duplicate(key, value));
  }

  /** In a valid catalog the checkout entry of a plan leads back to that plan,
      by product id and by slug, and its product id is the one `ProductIds`
      lists at the same position. */
  lemma CheckoutEntryFindsItsPlan(plans: seq<Plan>, i: nat)
    requires ValidationErrors(plans) == []
    requires i < |plans|
    ensures ProductsForCheckout(plans)[i].productId == ProductIds(plans)[i]
    ensures ProductIds(plans)[i].Some?
    ensures FindPlan(plans, ProductIdField, ProductIds(plans)[i].value) == Some(plans[i])
    ensures ProductsForCheckout(plans)[i].slug.Some?
    ensures FindPlan(plans, SlugField, ProductsForCheckout(plans)[i].slug.value) == Some(plans[i])
  {
    ValidIffWellFormed(plans);
    FirstMatchIsUnique(plans, i, ProductIdField);
    FirstMatchIsUnique(plans, i, SlugField);
  }

  lemma FirstMatchIsUnique(plans: seq<Plan>, i: nat, f: PlanField)
    requires WellFormed(plans)
    requires i < |plans|
    requires f == ProductIdField || f == SlugField
    ensures FieldValue(plans[i], f).Some?
    ensures FindPlan(plans, f, FieldValue(plans[i], f).value) == Some(plans[i])
  {
    assert PlanComplete(plans[i]);
    var k := FirstIndex(plans, f, FieldValue(plans[i], f).value);
    assert k.Some? && k.value <= i;
  }

  // ---------------------------------------------------------------------------
  // The process-wide cache

  /** The module-level plan list and the configuration it is filled from. */
  class PlanCatalog {
    const env: Env
    var plans: seq<Plan>

    /** The cache is empty or holds exactly what the configuration denotes. */
    ghost predicate Valid()
      reads this
    {
      plans == [] || plans == ConfiguredPlans(env)
    }

    constructor (env: Env)
      ensures this.env == env && plans == [] && Valid()
    {
      this.env := env;
      plans := [];
    }

    method InitializeSubscriptionPlans()
      modifies this
      ensures plans == ConfiguredPlans(env) && Valid()
    {
      plans := ParseSubscriptionPlansFromEnv(env);
    }

    /** Returns the cached list, parsing the configuration first only while the
        cache is empty. */
    method GetSubscriptionPlans() returns (r: seq<Plan>)
      requires Valid()
      modifies this
      ensures Valid() && r == plans
      ensures old(plans) != [] ==> plans == old(plans)
      ensures plans == ConfiguredPlans(env)
    {
      if |plans| == 0 {
        InitializeSubscriptionPlans();
      }
      r := plans;
    }

    method GetSubscriptionPlan(planId: string) returns (r: Option<Plan>)
      requires Valid()
      modifies this
      ensures Valid() && plans == ConfiguredPlans(env)
      ensures r == FindPlan(plans, IdField, planId)
    {
      var all := GetSubscriptionPlans();
      r := FindPlan(all, IdField, planId);
    }

    method GetSubscriptionPlanByProductId(productId: string) returns (r: Option<Plan>)
      requires Valid()
      modifies this
      ensures Valid() && plans == ConfiguredPlans(env)
      ensures r == FindPlan(plans, ProductIdField, productId)
    {
      var all := GetSubscriptionPlans();
      r := FindPlan(all, ProductIdField, productId);
    }

    method GetSubscriptionPlanBySlug(slug: string) returns (r: Option<Plan>)
      requires Valid()
      modifies this
      ensures Valid() && plans == ConfiguredPlans(env)
      ensures r == FindPlan(plans, SlugField, slug)
    {
      var all := GetSubscriptionPlans();
      r := FindPlan(all, SlugField, slug);
    }

    method GetAllProductIds() returns (r: seq<Option<string>>)
      requires Valid()
      modifies this
      ensures Valid() && plans == ConfiguredPlans(env)
      ensures r == ProductIds(plans)
    {
      var all := GetSubscriptionPlans();
      r := ProductIds(all);
    }

    method GetAllProductsForCheckout() returns (r: seq<CheckoutProduct>)
      requires Valid()
      modifies this
      ensures Valid() && plans == ConfiguredPlans(env)
      ensures r == ProductsForCheckout(plans)
    {
      var all := GetSubscriptionPlans();
      r := ProductsForCheckout(all);
    }

    method ValidateSubscriptionPlans() returns (valid: bool, errors: seq<ValidationError>)
      requires Valid()
      modifies this
      ensures Valid() && plans == ConfiguredPlans(env)
      ensures errors == ValidationErrors(plans)
      ensures valid <==> WellFormed(plans)
    {
      var all := GetSubscriptionPlans();
      valid, errors := ValidatePlans(all);
      ValidIffWellFormed(all);
    }
  }
}
