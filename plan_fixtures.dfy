/**
  The plans the dummy application declares, and the exact create payloads
  its tests expect for them, as test vectors for the plan builder.
 */
module PlanFixtures {
  import opened Wrappers
  import opened Plans

  const GoldBlock: seq<Assignment> :=
    [SetName("Solid Gold"), SetAmount(699), SetInterval("month")]

  const SolidGoldBlock: seq<Assignment> :=
    [SetConstantName("SOLID_GOLD"), SetName("Solid Gold"), SetAmount(699), SetInterval("month")]

  const AlternativeCurrencyBlock: seq<Assignment> :=
    [SetName("Alternative Currency"), SetAmount(699), SetInterval("month"), SetCurrency("cad")]

  const MeteredBlock: seq<Assignment> :=
    [SetName("Metered"), SetAmount(699), SetInterval("month"), SetUsageType("metered"),
     SetAggregateUsage("max"), SetBillingScheme("per_unit")]

  const TieredBlock: seq<Assignment> :=
    [SetName("Tiered"), SetBillingScheme("tiered"), SetInterval("month"),
     SetTiers([map["amount" := Int(0), "up_to" := Int(10)], map["amount" := Int(1000), "up_to" := Nil]]), SetTiersMode("graduated")]

  const TieredWithFlatAmountBlock: seq<Assignment> :=
    [SetName("Tiered With Flat Amount"), SetBillingScheme("tiered"), SetInterval("month"),
     SetTiers([map["amount" := Int(0), "flat_amount" := Int(10000), "up_to" := Int(10)], map["amount" := Int(1000), "flat_amount" := Int(0), "up_to" := Nil]]), SetTiersMode("graduated")]

  /** The fully configured plans. */
  const Gold: Draft := Seed("gold").(name := Some("Solid Gold"), amount := Some(699), interval := Some("month"))
  const SolidGold: Draft := Seed("Solid Gold").(constantName := Some("SOLID_GOLD"), name := Some("Solid Gold"),
                                                amount := Some(699), interval := Some("month"))
  const AlternativeCurrency: Draft :=
    Seed("alternative_currency").(name := Some("Alternative Currency"), amount := Some(699),
                                  interval := Some("month"), currency := "cad")
  const Metered: Draft :=
    Seed("metered").(name := Some("Metered"), amount := Some(699), interval := Some("month"),
                     usageType := Some("metered"), aggregateUsage := Some("max"), billingScheme := Some("per_unit"))
  const Tiered: Draft :=
    Seed("tiered").(name := Some("Tiered"), billingScheme := Some("tiered"), interval := Some("month"),
                    tiers := Some([map["amount" := Int(0), "up_to" := Int(10)], map["amount" := Int(1000), "up_to" := Nil]]), tiersMode := Some("graduated"))
  const TieredWithFlatAmount: Draft :=
    Seed("tiered_with_flat_amount").(name := Some("Tiered With Flat Amount"), billingScheme := Some("tiered"),
                                     interval := Some("month"), tiers := Some([map["amount" := Int(0), "flat_amount" := Int(10000), "up_to" := Int(10)], map["amount" := Int(1000), "flat_amount" := Int(0), "up_to" := Nil]]),
                                     tiersMode := Some("graduated"))

  // Each fixture block configures the plan above; the plan's constant is a
  // valid Ruby constant and the plan is accepted.

  lemma GoldConfigured()
    ensures Configure(Seed("gold"), GoldBlock) == Gold
  {
  }

  lemma GoldConstant()
    ensures ConstantFor(Gold) == "GOLD"
    ensures IsConstantName(ConstantFor(Gold))
  {
  }

  lemma GoldAccepted()
    ensures Accepts(Gold)
  {
    GoldConstant();
  }

  lemma SolidGoldConfigured()
    ensures Configure(Seed("Solid Gold"), SolidGoldBlock) == SolidGold
  {
  }

  lemma SolidGoldConstant()
    ensures ConstantFor(SolidGold) == "SOLID_GOLD"
    ensures IsConstantName(ConstantFor(SolidGold))
  {
  }

  lemma SolidGoldAccepted()
    ensures Accepts(SolidGold)
  {
    SolidGoldConstant();
  }

  lemma AlternativeCurrencyConfigured()
    ensures Configure(Seed("alternative_currency"), AlternativeCurrencyBlock) == AlternativeCurrency
  {
  }

  lemma AlternativeCurrencyConstant()
    ensures ConstantFor(AlternativeCurrency) == Upcase("alternative_currency")
    ensures IsConstantName(ConstantFor(AlternativeCurrency))
  {
  }

  lemma AlternativeCurrencyAccepted()
    ensures Accepts(AlternativeCurrency)
  {
    AlternativeCurrencyConstant();
  }

  lemma MeteredConfigured()
    ensures Configure(Seed("metered"), MeteredBlock) == Metered
  {
  }

  lemma MeteredConstant()
    ensures ConstantFor(Metered) == "METERED"
    ensures IsConstantName(ConstantFor(Metered))
  {
  }

  lemma MeteredAccepted()
    ensures Accepts(Metered)
  {
    MeteredConstant();
  }

  lemma TieredConfigured()
    ensures Configure(Seed("tiered"), TieredBlock) == Tiered
  {
  }

  lemma TieredConstant()
    ensures ConstantFor(Tiered) == "TIERED"
    ensures IsConstantName(ConstantFor(Tiered))
  {
  }

  lemma TieredAccepted()
    ensures Accepts(Tiered)
  {
    TieredConstant();
  }

  lemma TieredWithFlatAmountConfigured()
    ensures Configure(Seed("tiered_with_flat_amount"), TieredWithFlatAmountBlock) == TieredWithFlatAmount
  {
  }

  lemma TieredWithFlatAmountConstant()
    ensures ConstantFor(TieredWithFlatAmount) == Upcase("tiered_with_flat_amount")
    ensures IsConstantName(ConstantFor(TieredWithFlatAmount))
  {
  }

  lemma TieredWithFlatAmountAccepted()
    ensures Accepts(TieredWithFlatAmount)
  {
    TieredWithFlatAmountConstant();
  }

  /** Without its explicit constant name "Solid Gold" is rejected: the
      upper-cased key contains a space. */
  lemma SolidGoldNeedsConstantName()
    ensures !Accepts(SolidGold.(constantName := None))
  {
    var unnamed := SolidGold.(constantName := None);
    assert ConstantFor(unnamed)[5] == ' ';
    assert BadConstantName(ConstantFor(unnamed)) in Validate(unnamed);
  }

  /** The plan of the builder's first example: every optional attribute
      set, including a tiers mode on a per-unit plan. */
  const Primo: Draft :=
    Seed("primo").(name := Some("Acme as a service PRIMO"), amount := Some(699), interval := Some("month"),
                   intervalCount := 3, trialPeriodDays := 30,
                   metadata := Some(map["number_of_awesome_things" := Int(5)]),
                   statementDescriptor := Some("Acme Primo"), active := Some(Bool(true)), nickname := Some("primo"),
                   usageType := Some("metered"), billingScheme := Some("per_unit"), aggregateUsage := Some("sum"),
                   tiersMode := Some("graduated"))

  lemma PrimoConstant()
    ensures ConstantFor(Primo) == "PRIMO" && IsConstantName("PRIMO")
  {
  }

  lemma PrimoAccepted()
    ensures Accepts(Primo)
  {
    PrimoConstant();
  }

  /** `PRIMO_PLAN` names a constant; `PRIMO PLAN` (a space) and `_primo`
      (no leading letter) do not. */
  lemma PrimoPlanIsNoConstant()
    ensures IsConstantName(Upcase("PRIMO_PLAN"))
    ensures !IsConstantName(Upcase("PRIMO PLAN"))
    ensures !IsConstantName(Upcase("_primo"))
  {
    assert Upcase("PRIMO PLAN")[5] == ' ';
    assert Upcase("_primo")[0] == '_';
  }

  /** Renamed "PRIMO_PLAN" the example is still accepted; renamed
      "PRIMO PLAN" it is rejected. */
  lemma PrimoRenamed()
    ensures Accepts(Primo.(constantName := Some("PRIMO_PLAN")))
    ensures !Accepts(Primo.(constantName := Some("PRIMO PLAN")))
  {
    PrimoAccepted();
    PrimoPlanIsNoConstant();
    ConstantNameRule(Primo, "PRIMO_PLAN");
    ConstantNameRule(Primo, "PRIMO PLAN");
  }

  /** The six declarations register six distinct plans: no constant is
      shared, so none replaces another. */
  lemma FixtureConstantsDistinct()
    ensures ConstantFor(Gold) !in {ConstantFor(SolidGold), ConstantFor(AlternativeCurrency), ConstantFor(Metered), ConstantFor(Tiered), ConstantFor(TieredWithFlatAmount)}
    ensures ConstantFor(SolidGold) !in {ConstantFor(AlternativeCurrency), ConstantFor(Metered), ConstantFor(Tiered), ConstantFor(TieredWithFlatAmount)}
    ensures ConstantFor(AlternativeCurrency) !in {ConstantFor(Metered), ConstantFor(Tiered), ConstantFor(TieredWithFlatAmount)}
    ensures ConstantFor(Metered) !in {ConstantFor(Tiered), ConstantFor(TieredWithFlatAmount)}
    ensures ConstantFor(Tiered) !in {ConstantFor(TieredWithFlatAmount)}
  {
    GoldConstant();
    SolidGoldConstant();
    AlternativeCurrencyConstant();
    MeteredConstant();
    TieredConstant();
    TieredWithFlatAmountConstant();
  }

  // ---------------------------------------------------------------------------
  // Loading the dummy application's plan file: one `Stripe.plan` per fixture
  // ---------------------------------------------------------------------------

  method DeclareGold(reg: PlanRegistry) returns (result: Declaration)
    requires reg.Valid()
    modifies reg`plans, reg`order
    ensures reg.Valid()
    ensures result == Registered(Gold)
    ensures (reg.plans, reg.order) == Register(old(reg.plans), old(reg.order), Gold)
  {
    GoldConfigured();
    GoldAccepted();
    result := reg.Declare("gold", GoldBlock);
  }

  method DeclareSolidGold(reg: PlanRegistry) returns (result: Declaration)
    requires reg.Valid()
    modifies reg`plans, reg`order
    ensures reg.Valid()
    ensures result == Registered(SolidGold)
    ensures (reg.plans, reg.order) == Register(old(reg.plans), old(reg.order), SolidGold)
  {
    SolidGoldConfigured();
    SolidGoldAccepted();
    result := reg.Declare("Solid Gold", SolidGoldBlock);
  }

  method DeclareAlternativeCurrency(reg: PlanRegistry) returns (result: Declaration)
    requires reg.Valid()
    modifies reg`plans, reg`order
    ensures reg.Valid()
    ensures result == Registered(AlternativeCurrency)
    ensures (reg.plans, reg.order) == Register(old(reg.plans), old(reg.order), AlternativeCurrency)
  {
    AlternativeCurrencyConfigured();
    AlternativeCurrencyAccepted();
    result := reg.Declare("alternative_currency", AlternativeCurrencyBlock);
  }

  method DeclareMetered(reg: PlanRegistry) returns (result: Declaration)
    requires reg.Valid()
    modifies reg`plans, reg`order
    ensures reg.Valid()
    ensures result == Registered(Metered)
    ensures (reg.plans, reg.order) == Register(old(reg.plans), old(reg.order), Metered)
  {
    MeteredConfigured();
    MeteredAccepted();
    result := reg.Declare("metered", MeteredBlock);
  }

  method DeclareTiered(reg: PlanRegistry) returns (result: Declaration)
    requires reg.Valid()
    modifies reg`plans, reg`order
    ensures reg.Valid()
    ensures result == Registered(Tiered)
    ensures (reg.plans, reg.order) == Register(old(reg.plans), old(reg.order), Tiered)
  {
    TieredConfigured();
    TieredAccepted();
    result := reg.Declare("tiered", TieredBlock);
  }

  method DeclareTieredWithFlatAmount(reg: PlanRegistry) returns (result: Declaration)
    requires reg.Valid()
    modifies reg`plans, reg`order
    ensures reg.Valid()
    ensures result == Registered(TieredWithFlatAmount)
    ensures (reg.plans, reg.order) == Register(old(reg.plans), old(reg.order), TieredWithFlatAmount)
  {
    TieredWithFlatAmountConfigured();
    TieredWithFlatAmountAccepted();
    result := reg.Declare("tiered_with_flat_amount", TieredWithFlatAmountBlock);
  }

  /** The registry's contents after the plan file's six declarations, in
      file order. */
  function AfterDummyPlans(plans: map<string, Draft>, order: seq<string>): (map<string, Draft>, seq<string>)
  {
    var (p1, o1) := Register(plans, order, Gold);
    var (p2, o2) := Register(p1, o1, SolidGold);
    var (p3, o3) := Register(p2, o2, AlternativeCurrency);
    var (p4, o4) := Register(p3, o3, Metered);
    var (p5, o5) := Register(p4, o4, Tiered);
    Register(p5, o5, TieredWithFlatAmount)
  }

  /** Loading the plan file: each `Stripe.plan` of it, in order. */
  method DeclareDummyPlans(reg: PlanRegistry)
    requires reg.Valid()
    modifies reg`plans, reg`order
    ensures reg.Valid()
    ensures (reg.plans, reg.order) == AfterDummyPlans(old(reg.plans), old(reg.order))
  {
    var _ := DeclareGold(reg);
    var _ := DeclareSolidGold(reg);
    var _ := DeclareAlternativeCurrency(reg);
    var _ := DeclareMetered(reg);
    var _ := DeclareTiered(reg);
    var _ := DeclareTieredWithFlatAmount(reg);
  }

  /** Three registrations under three distinct constants not yet taken add
      all three plans and append their constants in registration order. */
  lemma RegisterThreeFresh(plans: map<string, Draft>, order: seq<string>, a: Draft, b: Draft, c: Draft)
    requires ConstantFor(a) !in plans && ConstantFor(b) !in plans && ConstantFor(c) !in plans
    requires ConstantFor(a) != ConstantFor(b) && ConstantFor(a) != ConstantFor(c) && ConstantFor(b) != ConstantFor(c)
    ensures
      var (p1, o1) := Register(plans, order, a);
      var (p2, o2) := Register(p1, o1, b);
      Register(p2, o2, c) ==
        (plans[ConstantFor(a) := a][ConstantFor(b) := b][ConstantFor(c) := c],
         order + [ConstantFor(a), ConstantFor(b), ConstantFor(c)])
  {
    var (ca, cb, cc) := (ConstantFor(a), ConstantFor(b), ConstantFor(c));
    RegisterFresh(plans, order, a);
    RegisterFresh(plans[ca := a], order + [ca], b);
    RegisterFresh(plans[ca := a][cb := b], order + [ca] + [cb], c);
    assert order + [ca] + [cb] + [cc] == order + [ca, cb, cc];
  }

  /** Six registrations under six distinct constants, into an empty
      registry, keep all six plans and list the constants in registration
      order. */
  lemma RegisterSixFresh(a: Draft, b: Draft, c: Draft, d: Draft, e: Draft, f: Draft)
    requires ConstantFor(a) != ConstantFor(b) && ConstantFor(a) != ConstantFor(c) && ConstantFor(b) != ConstantFor(c)
    requires ConstantFor(d) != ConstantFor(e) && ConstantFor(d) != ConstantFor(f) && ConstantFor(e) != ConstantFor(f)
    requires ConstantFor(a) != ConstantFor(d) && ConstantFor(a) != ConstantFor(e) && ConstantFor(a) != ConstantFor(f)
    requires ConstantFor(b) != ConstantFor(d) && ConstantFor(b) != ConstantFor(e) && ConstantFor(b) != ConstantFor(f)
    requires ConstantFor(c) != ConstantFor(d) && ConstantFor(c) != ConstantFor(e) && ConstantFor(c) != ConstantFor(f)
    ensures
      var (p1, o1) := Register(map[], [], a);
      var (p2, o2) := Register(p1, o1, b);
      var (p3, o3) := Register(p2, o2, c);
      var (p4, o4) := Register(p3, o3, d);
      var (p5, o5) := Register(p4, o4, e);
      Register(p5, o5, f) ==
        (map[ConstantFor(a) := a, ConstantFor(b) := b, ConstantFor(c) := c,
             ConstantFor(d) := d, ConstantFor(e) := e, ConstantFor(f) := f],
         [ConstantFor(a), ConstantFor(b), ConstantFor(c), ConstantFor(d), ConstantFor(e), ConstantFor(f)])
  {
    var first := [ConstantFor(a), ConstantFor(b), ConstantFor(c)];
    var plans := map[ConstantFor(a) := a, ConstantFor(b) := b, ConstantFor(c) := c];
    RegisterThreeFresh(map[], [], a, b, c);
    assert [] + first == first;
    assert plans.Keys == {ConstantFor(a), ConstantFor(b), ConstantFor(c)};
    RegisterThreeFresh(plans, first, d, e, f);
    assert first + [ConstantFor(d), ConstantFor(e), ConstantFor(f)]
        == [ConstantFor(a), ConstantFor(b), ConstantFor(c), ConstantFor(d), ConstantFor(e), ConstantFor(f)];
  }

  /** Loaded into an empty registry, the plan file registers its six plans
      under six distinct constants, listed in file order. */
  lemma DummyPlansFromScratch()
    ensures AfterDummyPlans(map[], []) ==
      (map[ConstantFor(Gold) := Gold, ConstantFor(SolidGold) := SolidGold,
           ConstantFor(AlternativeCurrency) := AlternativeCurrency, ConstantFor(Metered) := Metered,
           ConstantFor(Tiered) := Tiered, ConstantFor(TieredWithFlatAmount) := TieredWithFlatAmount],
       [ConstantFor(Gold), ConstantFor(SolidGold), ConstantFor(AlternativeCurrency),
        ConstantFor(Metered), ConstantFor(Tiered), ConstantFor(TieredWithFlatAmount)])
  {
    FixtureConstantsDistinct();
    RegisterSixFresh(Gold, SolidGold, AlternativeCurrency, Metered, Tiered, TieredWithFlatAmount);
  }

  /** The payload for the product-capable API, for a plan that names a new
      product. */
  function NewProduct(name: string): Value
  {
    Hash(map["name" := Str(name), "statement_descriptor" := Nil])
  }

  // The exact `Stripe::Plan.create` arguments the upload tests expect.

  lemma GoldLegacyPayload()
    ensures CreatePayload(Gold, PlansWithNames) ==
      map[Id := Sym("gold"), Currency := Str("usd"), Name := Str("Solid Gold"), Amount := Int(699),
          Interval := Str("month"), IntervalCount := Int(1), TrialPeriodDays := Int(0)]
  {
  }

  lemma AlternativeCurrencyLegacyPayload()
    ensures CreatePayload(AlternativeCurrency, PlansWithNames) ==
      map[Id := Sym("alternative_currency"), Currency := Str("cad"), Name := Str("Alternative Currency"),
          Amount := Int(699), Interval := Str("month"), IntervalCount := Int(1), TrialPeriodDays := Int(0)]
  {
  }

  /** The plan declared under "Solid Gold" is uploaded with that id, not its constant. */
  lemma SolidGoldLegacyPayload()
    ensures CreatePayload(SolidGold, PlansWithNames) ==
      map[Id := Sym("Solid Gold"), Currency := Str("usd"), Name := Str("Solid Gold"), Amount := Int(699),
          Interval := Str("month"), IntervalCount := Int(1), TrialPeriodDays := Int(0)]
  {
  }

  lemma GoldProductPayload()
    ensures CreatePayload(Gold, PlansWithProducts) ==
      map[Id := Sym("gold"), Currency := Str("usd"), Product := NewProduct("Solid Gold"), Amount := Int(699),
          Interval := Str("month"), IntervalCount := Int(1), TrialPeriodDays := Int(0)]
  {
  }

  /** With a product id and no name, the product id replaces the product hash. */
  lemma GoldProductIdPayload()
    ensures CreatePayload(Gold.(productId := Some("prod_XXXXXXXXXXXXXX"), name := None), PlansWithProducts) ==
      map[Id := Sym("gold"), Currency := Str("usd"), Product := Str("prod_XXXXXXXXXXXXXX"), Amount := Int(699),
          Interval := Str("month"), IntervalCount := Int(1), TrialPeriodDays := Int(0)]
  {
  }

  lemma MeteredProductPayload()
    ensures CreatePayload(Metered, PlansWithProducts) ==
      map[Id := Sym("metered"), Currency := Str("usd"), Product := NewProduct("Metered"), Amount := Int(699),
          Interval := Str("month"), IntervalCount := Int(1), TrialPeriodDays := Int(0), UsageType := Str("metered"),
          AggregateUsage := Str("max"), BillingScheme := Str("per_unit")]
  {
  }

  /** The fixtures' tiers are sent as declared: `up_to: nil` on the last
      tier stays in, and `flat_amount` appears only where it was declared. */
  lemma GraduatedTiersSent()
    ensures TiersValue([map["amount" := Int(0), "up_to" := Int(10)], map["amount" := Int(1000), "up_to" := Nil]]) ==
      List([Hash(map["amount" := Int(0), "up_to" := Int(10)]), Hash(map["amount" := Int(1000), "up_to" := Nil])])
  {
  }

  lemma FlatAmountTiersSent()
    ensures TiersValue([map["amount" := Int(0), "flat_amount" := Int(10000), "up_to" := Int(10)], map["amount" := Int(1000), "flat_amount" := Int(0), "up_to" := Nil]]) ==
      List([Hash(map["amount" := Int(0), "flat_amount" := Int(10000), "up_to" := Int(10)]),
            Hash(map["amount" := Int(1000), "flat_amount" := Int(0), "up_to" := Nil])])
  {
  }

  lemma TieredProductPayload()
    ensures CreatePayload(Tiered, PlansWithProducts) ==
      map[Id := Sym("tiered"), Currency := Str("usd"), Product := NewProduct("Tiered"),
          Interval := Str("month"), IntervalCount := Int(1), TrialPeriodDays := Int(0), BillingScheme := Str("tiered"),
          TiersMode := Str("graduated"),
          Tiers := List([Hash(map["amount" := Int(0), "up_to" := Int(10)]),
                         Hash(map["amount" := Int(1000), "up_to" := Nil])])]
  {
    GraduatedTiersSent();
  }

  lemma TieredWithFlatAmountProductPayload()
    ensures CreatePayload(TieredWithFlatAmount, PlansWithProducts) ==
      map[Id := Sym("tiered_with_flat_amount"), Currency := Str("usd"), Product := NewProduct("Tiered With Flat Amount"),
          Interval := Str("month"), IntervalCount := Int(1), TrialPeriodDays := Int(0), BillingScheme := Str("tiered"),
          TiersMode := Str("graduated"),
          Tiers := List([Hash(map["amount" := Int(0), "flat_amount" := Int(10000), "up_to" := Int(10)]),
                         Hash(map["amount" := Int(1000), "flat_amount" := Int(0), "up_to" := Nil])])]
  {
    FlatAmountTiersSent();
  }
}
