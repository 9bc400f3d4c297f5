/**
  Plan declaration, validation, registry and upload (`Stripe.plan`,
  `Stripe::Plans` and `put!`).

  `Stripe.plan key do |plan| ... end` seeds a draft with defaults, runs the
  block's field assignments in order, validates the result and, when it is
  valid, registers it under its upper-cased constant name; otherwise it raises
  `Stripe::InvalidConfigurationError`. Lookup in the registry ignores case and
  the symbol/string distinction. `put!` asks the remote API for the plan and
  creates it, with a payload whose shape depends on the API version, only
  when the remote answers "not found".
 */
module Plans {
  import opened Wrappers

  // ---------------------------------------------------------------------------
  // Values, tiers and drafts
  // ---------------------------------------------------------------------------

  /** The Ruby values that appear in plan attributes and upload payloads. */
  datatype Value =
    | Nil
    | Bool(b: bool)
    | Int(i: int)
    | Str(s: string)
    | Sym(name: string)
    | Hash(entries: map<string, Value>)
    | List(items: seq<Value>)

  /** One price tier: the property hash the block declares (such as
      `{amount: 0, up_to: 10}`), kept and sent exactly as written. */
  type Tier = map<string, Value>

  /** A plan under construction: the key given to `Stripe.plan` and every
      attribute the block may assign. Unset optional attributes are `None`. */
  datatype Draft = Draft(
    key: string,
    name: Option<string>,
    productId: Option<string>,
    constantName: Option<string>,
    amount: Option<int>,
    currency: string,
    interval: Option<string>,
    intervalCount: int,
    trialPeriodDays: int,
    statementDescriptor: Option<string>,
    active: Option<Value>,
    usageType: Option<string>,
    aggregateUsage: Option<string>,
    billingScheme: Option<string>,
    tiers: Option<seq<Tier>>,
    tiersMode: Option<string>,
    nickname: Option<string>,
    metadata: Option<map<string, Value>>)

  /** The draft a declaration starts from: currency "usd", one interval per
      period and no trial; everything else unset. */
  function Seed(key: string): (r: Draft)
    ensures r.key == key && r.currency == "usd" && r.intervalCount == 1 && r.trialPeriodDays == 0
    ensures r.name.None? && r.productId.None? && r.constantName.None? && r.amount.None? && r.interval.None?
    ensures r.statementDescriptor.None? && r.active.None? && r.usageType.None? && r.aggregateUsage.None?
    ensures r.billingScheme.None? && r.tiers.None? && r.tiersMode.None? && r.nickname.None? && r.metadata.None?
  {
    Draft(key, None, None, None, None, "usd", None, 1, 0,
          None, None, None, None, None, None, None, None, None)
  }

  /** One `plan.<attribute> = value` statement of a declaration block. */
  datatype Assignment =
    | SetName(newName: string)
    | SetProductId(newProductId: string)
    | SetConstantName(newConstantName: string)
    | SetAmount(newAmount: int)
    | SetCurrency(newCurrency: string)
    | SetInterval(newInterval: string)
    | SetIntervalCount(newIntervalCount: int)
    | SetTrialPeriodDays(newTrialPeriodDays: int)
    | SetStatementDescriptor(newDescriptor: string)
    | SetActive(newActive: Value)
    | SetUsageType(newUsageType: string)
    | SetAggregateUsage(newAggregateUsage: string)
    | SetBillingScheme(newBillingScheme: string)
    | SetTiers(newTiers: seq<Tier>)
    | SetTiersMode(newTiersMode: string)
    | SetNickname(newNickname: string)
    | SetMetadata(newMetadata: map<string, Value>)

  function Apply(d: Draft, a: Assignment): Draft
  {
    match a
    case SetName(v) => d.(name := Some(v))
    case SetProductId(v) => d.(productId := Some(v))
    case SetConstantName(v) => d.(constantName := Some(v))
    case SetAmount(v) => d.(amount := Some(v))
    case SetCurrency(v) => d.(currency := v)
    case SetInterval(v) => d.(interval := Some(v))
    case SetIntervalCount(v) => d.(intervalCount := v)
    case SetTrialPeriodDays(v) => d.(trialPeriodDays := v)
    case SetStatementDescriptor(v) => d.(statementDescriptor := Some(v))
    case SetActive(v) => d.(active := Some(v))
    case SetUsageType(v) => d.(usageType := Some(v))
    case SetAggregateUsage(v) => d.(aggregateUsage := Some(v))
    case SetBillingScheme(v) => d.(billingScheme := Some(v))
    case SetTiers(v) => d.(tiers := Some(v))
    case SetTiersMode(v) => d.(tiersMode := Some(v))
    case SetNickname(v) => d.(nickname := Some(v))
    case SetMetadata(v) => d.(metadata := Some(v))
  }

  /** The draft after running a block's assignments in order. A block
      assigns attributes only: the declared key never changes. */
  function Configure(d: Draft, block: seq<Assignment>): (r: Draft)
    ensures r.key == d.key
    decreases |block|
  {
    if block == [] then d else Configure(Apply(d, block[0]), block[1..])
  }

  /** Running two blocks one after the other is running their concatenation. */
  lemma {:induction false} ConfigureConcat(d: Draft, first: seq<Assignment>, second: seq<Assignment>)
    ensures Configure(d, first + second) == Configure(Configure(d, first), second)
    decreases |first|
  {
    if first == [] {
      assert first + second == second;
    } else {
      assert (first + second)[1..] == first[1..] + second;
      ConfigureConcat(Apply(d, first[0]), first[1..], second);
    }
  }

  // ---------------------------------------------------------------------------
  // Constant names
  // ---------------------------------------------------------------------------

  function UpChar(c: char): char
  {
    if 'a' <= c <= 'z' then (c as int - 32) as char else c
  }

  function DownChar(c: char): char
  {
    if 'A' <= c <= 'Z' then (c as int + 32) as char else c
  }

  /** ASCII `String#upcase`. */
  function Upcase(s: string): string
  {
    seq(|s|, i requires 0 <= i < |s| => UpChar(s[i]))
  }

  /** ASCII `String#downcase`. */
  function Downcase(s: string): string
  {
    seq(|s|, i requires 0 <= i < |s| => DownChar(s[i]))
  }

  /** Upper-casing ignores the case a name was written in. */
  lemma UpcaseIgnoresCase(s: string)
    ensures Upcase(Downcase(s)) == Upcase(s)
    ensures Upcase(Upcase(s)) == Upcase(s)
  {
    assert forall i :: 0 <= i < |s| ==> UpChar(DownChar(s[i])) == UpChar(s[i]);
  }

  predicate IsLetterOrUnderscore(c: char)
  {
    'A' <= c <= 'Z' || 'a' <= c <= 'z' || c == '_'
  }

  predicate IsDigit(c: char)
  {
    '0' <= c <= '9'
  }

  /** A name Ruby accepts for a constant of `Stripe::Plans`: an upper-case
      letter, then letters, digits and underscores (`[A-Z][A-Za-z0-9_]*`). */
  predicate IsConstantName(s: string)
  {
    && |s| > 0
    && 'A' <= s[0] <= 'Z'
    && forall i :: 0 < i < |s| ==> IsLetterOrUnderscore(s[i]) || IsDigit(s[i])
  }

  /** The constant a plan is registered under: the explicit `constant_name`
      if one was given, else the key, upper-cased. */
  function ConstantFor(d: Draft): string
  {
    Upcase(if d.constantName.Some? then d.constantName.value else d.key)
  }

  /** The constant differs from the name it comes from in letter case only,
      and has no lower-case letter left. */
  lemma ConstantForRaisesCase(d: Draft)
    ensures var named := if d.constantName.Some? then d.constantName.value else d.key;
      && |ConstantFor(d)| == |named|
      && forall i :: 0 <= i < |named| ==>
           !('a' <= ConstantFor(d)[i] <= 'z') && DownChar(ConstantFor(d)[i]) == DownChar(named[i])
  {
  }

  // ---------------------------------------------------------------------------
  // Validation
  // ---------------------------------------------------------------------------

  const Intervals: set<string> := {"day", "week", "month", "year"}
  const UsageTypes: set<string> := {"metered", "licensed"}
  const AggregateUsages: set<string> := {"sum", "last_during_period", "last_ever", "max"}
  const BillingSchemes: set<string> := {"per_unit", "tiered"}
  const TiersModes: set<string> := {"graduated", "volume"}
  const MaxDescriptorLength: nat := 22

  /** One broken rule of a declaration. */
  datatype Violation =
    | NameAndProductId
    | NoNameOrProductId
    | BadConstantName(constant: string)
    | MissingAmount
    | BadInterval
    | IntervalCountBelowOne
    | NegativeTrialPeriod
    | DescriptorTooLong
    | ActiveNotBoolean
    | BadUsageType
    | BadAggregateUsage
    | BadBillingScheme
    | BadTiersMode
    | AggregateUsageWithoutMetered
    | MissingTiers
    | MissingTiersMode
    | TiersWithoutTieredScheme

  function Check(holds: bool, v: Violation): seq<Violation>
  {
    if holds then [] else [v]
  }

  /** An optional attribute that, when set, must be drawn from `allowed`. */
  predicate InOrUnset(o: Option<string>, allowed: set<string>)
  {
    o.Some? ==> o.value in allowed
  }

  predicate IsTiered(d: Draft)
  {
    d.billingScheme == Some("tiered")
  }

  /** Whether `d` breaks the rule that `v` reports. */
  predicate Breaks(d: Draft, v: Violation)
  {
    match v
    case NameAndProductId => d.name.Some? && d.productId.Some?
    case NoNameOrProductId => d.name.None? && d.productId.None?
    case BadConstantName(c) => c == ConstantFor(d) && !IsConstantName(c)
    case MissingAmount => d.amount.None? && !IsTiered(d)
    case BadInterval => d.interval.None? || d.interval.value !in Intervals
    case IntervalCountBelowOne => d.intervalCount < 1
    case NegativeTrialPeriod => d.trialPeriodDays < 0
    case DescriptorTooLong => d.statementDescriptor.Some? && |d.statementDescriptor.value| > MaxDescriptorLength
    case ActiveNotBoolean => d.active.Some? && !d.active.value.Bool?
    case BadUsageType => d.usageType.Some? && d.usageType.value !in UsageTypes
    case BadAggregateUsage => d.aggregateUsage.Some? && d.aggregateUsage.value !in AggregateUsages
    case BadBillingScheme => d.billingScheme.Some? && d.billingScheme.value !in BillingSchemes
    case BadTiersMode => d.tiersMode.Some? && d.tiersMode.value !in TiersModes
    case AggregateUsageWithoutMetered => d.aggregateUsage.Some? && d.usageType != Some("metered")
    case MissingTiers => IsTiered(d) && (d.tiers.None? || |d.tiers.value| == 0)
    case MissingTiersMode => IsTiered(d) && d.tiersMode.None?
    case TiersWithoutTieredScheme => d.tiers.Some? && !IsTiered(d)
  }

  /** Which group of rules reports `v`: naming, schedule, attribute values,
      usage and tiers. */
  function RuleGroup(v: Violation): nat
  {
    match v
    case NameAndProductId | NoNameOrProductId | BadConstantName(_) => 0
    case MissingAmount | BadInterval | IntervalCountBelowOne | NegativeTrialPeriod => 1
    case DescriptorTooLong | ActiveNotBoolean | BadUsageType | BadAggregateUsage | BadBillingScheme | BadTiersMode => 2
    case AggregateUsageWithoutMetered | MissingTiers | MissingTiersMode | TiersWithoutTieredScheme => 3
  }

  /** The naming rules: name or product id, and the constant name. */
  function NamingChecks(d: Draft): (r: seq<Violation>)
    ensures forall v :: v in r <==> RuleGroup(v) == 0 && Breaks(d, v)
  {
    Check(!(d.name.Some? && d.productId.Some?), NameAndProductId)
    + Check(d.name.Some? || d.productId.Some?, NoNameOrProductId)
    + Check(IsConstantName(ConstantFor(d)), BadConstantName(ConstantFor(d)))
  }

  /** The price and schedule rules. */
  function ScheduleChecks(d: Draft): (r: seq<Violation>)
    ensures forall v :: v in r <==> RuleGroup(v) == 1 && Breaks(d, v)
  {
    Check(d.amount.Some? || IsTiered(d), MissingAmount)
    + Check(d.interval.Some? && d.interval.value in Intervals, BadInterval)
    + Check(d.intervalCount >= 1, IntervalCountBelowOne)
    + Check(d.trialPeriodDays >= 0, NegativeTrialPeriod)
  }

  /** The rules on single attribute values. */
  function AttributeChecks(d: Draft): (r: seq<Violation>)
    ensures forall v :: v in r <==> RuleGroup(v) == 2 && Breaks(d, v)
  {
    Check(d.statementDescriptor.Some? ==> |d.statementDescriptor.value| <= MaxDescriptorLength, DescriptorTooLong)
    + Check(d.active.Some? ==> d.active.value.Bool?, ActiveNotBoolean)
    + Check(InOrUnset(d.usageType, UsageTypes), BadUsageType)
    + Check(InOrUnset(d.aggregateUsage, AggregateUsages), BadAggregateUsage)
    + Check(InOrUnset(d.billingScheme, BillingSchemes), BadBillingScheme)
    + Check(InOrUnset(d.tiersMode, TiersModes), BadTiersMode)
  }

  /** The rules tying usage and tiers to the billing scheme. */
  function TierChecks(d: Draft): (r: seq<Violation>)
    ensures forall v :: v in r <==> RuleGroup(v) == 3 && Breaks(d, v)
  {
    Check(d.aggregateUsage.Some? ==> d.usageType == Some("metered"), AggregateUsageWithoutMetered)
    + Check(IsTiered(d) ==> d.tiers.Some? && |d.tiers.value| > 0, MissingTiers)
    + Check(IsTiered(d) ==> d.tiersMode.Some?, MissingTiersMode)
    + Check(d.tiers.Some? ==> IsTiered(d), TiersWithoutTieredScheme)
  }

  /** Every rule is checked, so a failing declaration reports all its
      faults: the report lists exactly the rules the draft breaks. */
  function Validate(d: Draft): (r: seq<Violation>)
    ensures forall v :: v in r <==> Breaks(d, v)
  {
    NamingChecks(d) + ScheduleChecks(d) + AttributeChecks(d) + TierChecks(d)
  }

  /** The declaration is accepted: no rule is broken. */
  predicate Accepts(d: Draft)
  {
    Validate(d) == []
  }

  /** A draft is accepted exactly when it breaks none of the rules. */
  lemma AcceptsIffNoRuleBroken(d: Draft)
    ensures Accepts(d) <==> forall v :: !Breaks(d, v)
  {
    if !Accepts(d) {
      assert Breaks(d, Validate(d)[0]);
    }
  }

  /** Any of the four intervals keeps an accepted plan accepted; any other
      value is rejected. */
  lemma IntervalRule(d: Draft, interval: string)
    requires Accepts(d)
    ensures Accepts(d.(interval := Some(interval))) <==> interval in Intervals
  {
  }

  /** A statement descriptor is accepted up to 22 characters and no longer. */
  lemma DescriptorRule(d: Draft, descriptor: string)
    requires Accepts(d)
    ensures Accepts(d.(statementDescriptor := Some(descriptor))) <==> |descriptor| <= MaxDescriptorLength
  {
  }

  /** `active` must be a boolean; no other value is coerced. */
  lemma ActiveRule(d: Draft, active: Value)
    requires Accepts(d)
    ensures Accepts(d.(active := Some(active))) <==> active.Bool?
  {
  }

  /** A value outside its closed set is rejected for each enumerated
      attribute, whatever the rest of the plan says. */
  lemma ClosedSetRules(d: Draft, value: string)
    ensures value !in UsageTypes ==> !Accepts(d.(usageType := Some(value)))
    ensures value !in AggregateUsages ==> !Accepts(d.(aggregateUsage := Some(value)))
    ensures value !in BillingSchemes ==> !Accepts(d.(billingScheme := Some(value)))
    ensures value !in TiersModes ==> !Accepts(d.(tiersMode := Some(value)))
    ensures value !in Intervals ==> !Accepts(d.(interval := Some(value)))
  {
    assert BadUsageType in Validate(d.(usageType := Some(value))) <== value !in UsageTypes;
  }

  /** An aggregate usage is rejected with a licensed usage type and accepted
      with a metered one. */
  lemma AggregateUsageRule(d: Draft, aggregate: string)
    requires aggregate in AggregateUsages
    ensures !Accepts(d.(usageType := Some("licensed"), aggregateUsage := Some(aggregate)))
    ensures Accepts(d) ==> Accepts(d.(usageType := Some("metered"), aggregateUsage := Some(aggregate)))
  {
    var licensed := d.(usageType := Some("licensed"), aggregateUsage := Some(aggregate));
    assert AggregateUsageWithoutMetered in Validate(licensed);
  }

  /** Exactly one of name and product id: the product id alone replaces a
      name, and both together are rejected. */
  lemma NamingRule(d: Draft, productId: string)
    ensures Accepts(d) ==> (d.name.Some? <==> d.productId.None?)
    ensures Accepts(d) && d.name.Some? ==> Accepts(d.(name := None, productId := Some(productId)))
    ensures d.name.Some? ==> !Accepts(d.(productId := Some(productId)))
  {
    if d.name.Some? {
      assert NameAndProductId in Validate(d.(productId := Some(productId)));
    }
  }

  /** An empty block is rejected: it has no name or product id, no amount
      and no interval. */
  lemma EmptyBlockRule(key: string)
    ensures var v := Validate(Configure(Seed(key), []));
      NoNameOrProductId in v && MissingAmount in v && BadInterval in v
  {
  }

  /** An accepted plan without an amount is tiered, with tiers and a tiers
      mode; a per-unit plan may set a tiers mode without tiers. */
  lemma AmountRule(d: Draft, mode: string)
    ensures Accepts(d) && d.amount.None? ==>
      IsTiered(d) && d.tiers.Some? && |d.tiers.value| > 0 && d.tiersMode.Some?
    ensures Accepts(d) && d.billingScheme == Some("per_unit") && mode in TiersModes ==>
      Accepts(d.(tiersMode := Some(mode)))
  {
  }

  /** An explicit constant name is accepted exactly when, upper-cased, it is
      a valid Ruby constant. */
  lemma ConstantNameRule(d: Draft, constant: string)
    requires Accepts(d)
    ensures Accepts(d.(constantName := Some(constant))) <==> IsConstantName(Upcase(constant))
  {
    var e := d.(constantName := Some(constant));
    if !IsConstantName(Upcase(constant)) {
      assert BadConstantName(ConstantFor(e)) in Validate(e);
    }
  }

  // ---------------------------------------------------------------------------
  // The registry (`Stripe::Plans`)
  // ---------------------------------------------------------------------------

  /** A lookup key: a symbol or a string. */
  datatype Key = SymbolKey(text: string) | StringKey(text: string)

  /** The outcome of `Stripe.plan`: the plan registered, or the
      configuration error with every violation. */
  datatype Declaration = Registered(plan: Draft) | Rejected(violations: seq<Violation>)

  /** Only accepted plans are registered, each under its own constant;
      `order` lists every constant once, in declaration order. */
  ghost predicate RegistryInvariant(plans: map<string, Draft>, order: seq<string>)
  {
    && (forall c :: c in plans ==> Accepts(plans[c]) && ConstantFor(plans[c]) == c)
    && (forall c :: c in plans <==> c in order)
    && (forall i, j :: 0 <= i < j < |order| ==> order[i] != order[j])
  }

  /** The registry's contents after registering `d`: the plan under its
      constant, replacing an earlier plan of that constant; the constant is
      appended to the order the first time only. */
  function Register(plans: map<string, Draft>, order: seq<string>, d: Draft): (map<string, Draft>, seq<string>)
  {
    var c := ConstantFor(d);
    (plans[c := d], if c in plans then order else order + [c])
  }

  /** After registering `d`, looking up its constant gives `d`, every other
      constant keeps its plan, and the earlier order is kept as a prefix with
      at most one constant after it. */
  lemma RegisterStores(plans: map<string, Draft>, order: seq<string>, d: Draft)
    ensures var (p, o) := Register(plans, order, d);
      && ConstantFor(d) in p && p[ConstantFor(d)] == d
      && (forall c :: c in p && c != ConstantFor(d) ==> c in plans && p[c] == plans[c])
      && |order| <= |o| <= |order| + 1 && o[..|order|] == order
  {
  }

  /** Registering a plan under a constant not yet taken adds it and appends
      the constant to the order. */
  lemma RegisterFresh(plans: map<string, Draft>, order: seq<string>, d: Draft)
    requires ConstantFor(d) !in plans
    ensures Register(plans, order, d) == (plans[ConstantFor(d) := d], order + [ConstantFor(d)])
  {
  }

  /** Registering an accepted plan keeps the invariant: its constant is
      appended to the order the first time only. */
  lemma RegisterKeepsInvariant(plans: map<string, Draft>, order: seq<string>, d: Draft)
    requires RegistryInvariant(plans, order) && Accepts(d)
    ensures var c := ConstantFor(d);
      RegistryInvariant(plans[c := d], if c in plans then order else order + [c])
  {
  }

  /** The registered plans, each under its constant name. */
  class PlanRegistry {
    var plans: map<string, Draft>
    var order: seq<string>

    ghost predicate Valid()
      reads this
    {
      RegistryInvariant(plans, order)
    }

    constructor ()
      ensures Valid() && plans == map[] && order == []
    {
      plans := map[];
      order := [];
    }

    /** `Stripe.plan key do ... end`: seed, run the block, validate, then
        register (a second declaration of a constant replaces the first) or
        reject with every violation and leave the registry unchanged. */
    method Declare(key: string, block: seq<Assignment>) returns (result: Declaration)
      requires Valid()
      modifies this`plans, this`order
      ensures Valid()
      ensures var d := Configure(Seed(key), block);
        if Accepts(d) then
          && result == Registered(d)
          && plans == old(plans)[ConstantFor(d) := d]
          && order == (if ConstantFor(d) in old(plans) then old(order) else old(order) + [ConstantFor(d)])
        else
          && result == Rejected(Validate(d))
          && plans == old(plans) && order == old(order)
    {
      var d := Seed(key);
      var i := 0;
      assert block[0..] == block;
      while i < |block|
        invariant 0 <= i <= |block|
        invariant Configure(d, block[i..]) == Configure(Seed(key), block)
      {
        assert block[i..][1..] == block[i + 1..];
        d := Apply(d, block[i]);
        i := i + 1;
      }
      assert d == Configure(Seed(key), block);
      var violations := Validate(d);
      if violations != [] {
        return Rejected(violations);
      }
      var constant := ConstantFor(d);
      RegisterKeepsInvariant(plans, order, d);
      if constant !in plans {
        order := order + [constant];
      }
      plans := plans[constant := d];
      result := Registered(d);
    }

    /** `Stripe::Plans[key]`: the plan whose constant is the key upper-cased. */
    function Lookup(k: Key): (r: Option<Draft>)
      requires Valid()
      reads this
      ensures r.Some? ==> Upcase(k.text) in plans && r.value == plans[Upcase(k.text)]
      ensures r.Some? ==> Accepts(r.value) && ConstantFor(r.value) == Upcase(k.text)
      ensures r.None? <==> Upcase(k.text) !in plans
    {
      var constant := Upcase(k.text);
      if constant in plans then Some(plans[constant]) else None
    }

    /** `Stripe::Plans.all`: every registered plan once, in declaration order. */
    function All(): (all: seq<Draft>)
      requires Valid()
      reads this
      ensures |all| == |order| == |plans|
      ensures forall i :: 0 <= i < |order| ==> order[i] in plans && all[i] == plans[order[i]]
      ensures forall c :: c in plans ==> plans[c] in all
      ensures forall d :: d in all ==> Accepts(d)
    {
      OrderCoversPlans();
      var names, registered := order, plans;
      var all := seq(|names|, i requires 0 <= i < |names| => registered[names[i]]);
      EveryPlanListed(all);
      all
    }

    lemma OrderCoversPlans()
      requires Valid()
      ensures |order| == |plans|
      ensures forall i :: 0 <= i < |order| ==> order[i] in plans
    {
      var keys := set c | c in order;
      assert keys == plans.Keys;
      DistinctCardinality(order);
    }

    lemma EveryPlanListed(all: seq<Draft>)
      requires Valid()
      requires |all| == |order|
      requires forall i :: 0 <= i < |order| ==> order[i] in plans && all[i] == plans[order[i]]
      ensures forall c :: c in plans ==> plans[c] in all
      ensures forall d :: d in all ==> Accepts(d)
    {
      forall c | c in plans
        ensures plans[c] in all
      {
        assert c in order;
        var i :| 0 <= i < |order| && order[i] == c;
        assert all[i] == plans[c];
      }
    }
  }

  /** A sequence without repetitions has as many distinct elements as entries. */
  lemma {:induction false} DistinctCardinality(s: seq<string>)
    requires forall i, j :: 0 <= i < j < |s| ==> s[i] != s[j]
    ensures |set x | x in s| == |s|
    decreases |s|
  {
    if s != [] {
      var init := s[..|s| - 1];
      DistinctCardinality(init);
      assert (set x | x in s) == (set x | x in init) + {s[|s| - 1]};
      assert s[|s| - 1] !in (set x | x in init);
    }
  }

  /** A registered plan is found by its key as a symbol, as a string, in
      lower case or in upper case alike. */
  lemma LookupIgnoresKeyForm(reg: PlanRegistry, text: string)
    requires reg.Valid()
    ensures reg.Lookup(SymbolKey(text)) == reg.Lookup(StringKey(text))
    ensures reg.Lookup(StringKey(Downcase(text))) == reg.Lookup(StringKey(text))
    ensures reg.Lookup(StringKey(Upcase(text))) == reg.Lookup(StringKey(text))
  {
    UpcaseIgnoresCase(text);
  }

  // ---------------------------------------------------------------------------
  // The upload payload
  // ---------------------------------------------------------------------------

  /** Which shape `Stripe::Plan.create` takes: plans named directly (API
      versions before products existed) or plans attached to a product. */
  datatype ApiVersion = PlansWithNames | PlansWithProducts

  /** A tier is sent as the hash it was declared with. */
  function TierValue(t: Tier): Value
  {
    Hash(t)
  }

  function TiersValue(tiers: seq<Tier>): Value
  {
    List(seq(|tiers|, i requires 0 <= i < |tiers| => TierValue(tiers[i])))
  }

  function StrOf(o: Option<string>): Option<Value>
  {
    if o.Some? then Some(Str(o.value)) else None
  }

  function IntOf(o: Option<int>): Option<Value>
  {
    if o.Some? then Some(Int(o.value)) else None
  }

  /** The `product` entry: the product id, or a new product's name and
      statement descriptor (the descriptor is sent even when nil). */
  function ProductValue(d: Draft): Value
  {
    if d.productId.Some? then Str(d.productId.value)
    else Hash(map["name" := (if d.name.Some? then Str(d.name.value) else Nil),
                  "statement_descriptor" := (if d.statementDescriptor.Some? then Str(d.statementDescriptor.value) else Nil)])
  }

  /** The top-level keys of a create payload. */
  datatype Param =
    | Id | Currency | IntervalCount | TrialPeriodDays | Product | Name
    | StatementDescriptor | Amount | Interval | Metadata | UsageType
    | AggregateUsage | BillingScheme | Nickname | Tiers | TiersMode

  const AllParams: set<Param> :=
    {Id, Currency, IntervalCount, TrialPeriodDays, Product, Name,
     StatementDescriptor, Amount, Interval, Metadata, UsageType,
     AggregateUsage, BillingScheme, Nickname, Tiers, TiersMode}

  /** The symbol each key is sent as. */
  function ParamName(p: Param): string
  {
    match p
    case Id => "id"
    case Currency => "currency"
    case IntervalCount => "interval_count"
    case TrialPeriodDays => "trial_period_days"
    case Product => "product"
    case Name => "name"
    case StatementDescriptor => "statement_descriptor"
    case Amount => "amount"
    case Interval => "interval"
    case Metadata => "metadata"
    case UsageType => "usage_type"
    case AggregateUsage => "aggregate_usage"
    case BillingScheme => "billing_scheme"
    case Nickname => "nickname"
    case Tiers => "tiers"
    case TiersMode => "tiers_mode"
  }

  /** The value sent under one key, or nil. */
  function PayloadField(d: Draft, api: ApiVersion, p: Param): Option<Value>
  {
    match p
    case Id => Some(Sym(d.key))
    case Currency => Some(Str(d.currency))
    case IntervalCount => Some(Int(d.intervalCount))
    case TrialPeriodDays => Some(Int(d.trialPeriodDays))
    case Product => if api == PlansWithProducts then Some(ProductValue(d)) else None
    case Name => if api == PlansWithNames then StrOf(d.name) else None
    case StatementDescriptor => if api == PlansWithNames then StrOf(d.statementDescriptor) else None
    case Amount => IntOf(d.amount)
    case Interval => StrOf(d.interval)
    case Metadata => if d.metadata.Some? then Some(Hash(d.metadata.value)) else None
    case UsageType => StrOf(d.usageType)
    case AggregateUsage => StrOf(d.aggregateUsage)
    case BillingScheme => StrOf(d.billingScheme)
    case Nickname => StrOf(d.nickname)
    case Tiers => if d.tiers.Some? then Some(TiersValue(d.tiers.value)) else None
    case TiersMode => StrOf(d.tiersMode)
  }

  /** The argument of `Stripe::Plan.create`: the key as a symbol id, then
      every attribute that is set, nil entries dropped. */
  function CreatePayload(d: Draft, api: ApiVersion): (m: map<Param, Value>)
    ensures Id in m && Currency in m && IntervalCount in m && TrialPeriodDays in m
    ensures Product in m <==> api == PlansWithProducts
    ensures Name in m ==> api == PlansWithNames && d.name.Some?
  {
    map p | p in AllParams && PayloadField(d, api, p).Some? :: PayloadField(d, api, p).value
  }

  /** A key is in the payload exactly when its value is not nil. */
  lemma PayloadEntry(d: Draft, api: ApiVersion, p: Param)
    ensures var m := CreatePayload(d, api);
      (p in m <==> PayloadField(d, api, p).Some?)
      && (p in m ==> m[p] == PayloadField(d, api, p).value)
  {
    assert p in AllParams;
  }

  /** Under the legacy API the name and descriptor are top-level and no
      product is built; under a product-capable API the name moves into a
      `product` hash (descriptor included even when nil), or the product id
      is sent instead. */
  lemma PayloadNaming(d: Draft, api: ApiVersion)
    ensures var m := CreatePayload(d, api);
      && Id in m && m[Id] == Sym(d.key)
      && (api == PlansWithNames ==>
            && Product !in m
            && (Name in m <==> d.name.Some?)
            && (d.name.Some? ==> m[Name] == Str(d.name.value)))
      && (api == PlansWithProducts ==>
            && Name !in m && StatementDescriptor !in m && Product in m
            && (d.productId.Some? ==> m[Product] == Str(d.productId.value))
            && (d.productId.None? ==>
                  m[Product] == Hash(map["name" := (if d.name.Some? then Str(d.name.value) else Nil),
                                         "statement_descriptor" :=
                                           (if d.statementDescriptor.Some? then Str(d.statementDescriptor.value) else Nil)])))
  {
  }

  /** Attributes that are not set are left out of the payload, not sent as
      nil; there is no key for `active` or the constant name. */
  lemma UnsetAttributesOmitted(d: Draft, api: ApiVersion)
    ensures var m := CreatePayload(d, api);
      && (Amount in m <==> d.amount.Some?)
      && (Interval in m <==> d.interval.Some?)
      && (Metadata in m <==> d.metadata.Some?)
      && (UsageType in m <==> d.usageType.Some?)
      && (AggregateUsage in m <==> d.aggregateUsage.Some?)
      && (BillingScheme in m <==> d.billingScheme.Some?)
      && (Nickname in m <==> d.nickname.Some?)
      && (Tiers in m <==> d.tiers.Some?)
      && (TiersMode in m <==> d.tiersMode.Some?)
  {
    PayloadEntry(d, api, Amount);
    PayloadEntry(d, api, Interval);
    PayloadEntry(d, api, Metadata);
    PayloadEntry(d, api, UsageType);
    PayloadEntry(d, api, AggregateUsage);
    PayloadEntry(d, api, BillingScheme);
    PayloadEntry(d, api, Nickname);
    PayloadEntry(d, api, Tiers);
    PayloadEntry(d, api, TiersMode);
  }

  // --- Reading a payload back ---

  function IntField<K>(m: map<K, Value>, k: K): Option<int>
  {
    if k in m && m[k].Int? then Some(m[k].i) else None
  }

  function StrField<K>(m: map<K, Value>, k: K): Option<string>
  {
    if k in m && m[k].Str? then Some(m[k].s) else None
  }

  function DecodeTier(v: Value): Option<Tier>
  {
    if v.Hash? then Some(v.entries) else None
  }

  function DecodeTierList(items: seq<Value>): Option<seq<Tier>>
    decreases |items|
  {
    if items == [] then Some([])
    else
      var t := DecodeTier(items[0]);
      var rest := DecodeTierList(items[1..]);
      if t.Some? && rest.Some? then Some([t.value] + rest.value) else None
  }

  /** A tier list survives encoding: every tier hash is recovered, with all
      its keys, in order. */
  lemma {:induction false} TiersRoundTrip(tiers: seq<Tier>)
    ensures DecodeTierList(TiersValue(tiers).items) == Some(tiers)
    decreases |tiers|
  {
    var items := TiersValue(tiers).items;
    if tiers != [] {
      var t := tiers[0];
      assert items[0] == TierValue(t);
      assert DecodeTier(TierValue(t)) == Some(t);
      assert items[1..] == TiersValue(tiers[1..]).items;
      TiersRoundTrip(tiers[1..]);
      assert [t] + tiers[1..] == tiers;
    }
  }

  /** The attributes an upload carries: everything except `active` and the
      constant name; under the legacy API the product id is not sent, and a
      product id replaces the name and descriptor under the product API. */
  function Uploaded(d: Draft, api: ApiVersion): Draft
  {
    var e := d.(constantName := None, active := None);
    if api == PlansWithNames then e.(productId := None)
    else if d.productId.Some? then e.(name := None, statementDescriptor := None)
    else e
  }

  /** Reads the tiers back, if they are there and well formed. */
  function TiersOfPayload(m: map<Param, Value>): Option<seq<Tier>>
  {
    if Tiers in m && m[Tiers].List? then DecodeTierList(m[Tiers].items) else None
  }

  /** Reads the name, product id and statement descriptor back: top-level
      under the legacy API, from the `product` entry otherwise. */
  function NamingOfPayload(m: map<Param, Value>, api: ApiVersion): (Option<string>, Option<string>, Option<string>)
  {
    if api == PlansWithNames then (StrField(m, Name), None, StrField(m, StatementDescriptor))
    else if Product in m && m[Product].Str? then (None, Some(m[Product].s), None)
    else if Product in m && m[Product].Hash? then
      (StrField(m[Product].entries, "name"), None, StrField(m[Product].entries, "statement_descriptor"))
    else (None, None, None)
  }

  /** Reads the carried attributes back out of a payload. */
  function PlanOfPayload(m: map<Param, Value>, api: ApiVersion): (r: Option<Draft>)
    ensures r.Some? ==> Id in m && m[Id] == Sym(r.value.key) && Currency in m && m[Currency] == Str(r.value.currency)
    ensures r.Some? ==> r.value.constantName.None? && r.value.active.None?
  {
    if Id in m && m[Id].Sym? && Currency in m && m[Currency].Str?
       && IntervalCount in m && m[IntervalCount].Int?
       && TrialPeriodDays in m && m[TrialPeriodDays].Int?
    then
      var metadata := if Metadata in m && m[Metadata].Hash? then Some(m[Metadata].entries) else None;
      var (name, productId, descriptor) := NamingOfPayload(m, api);
      Some(Draft(m[Id].name, name, productId, None, IntField(m, Amount), m[Currency].s,
                 StrField(m, Interval), m[IntervalCount].i, m[TrialPeriodDays].i,
                 descriptor, None, StrField(m, UsageType), StrField(m, AggregateUsage),
                 StrField(m, BillingScheme), TiersOfPayload(m), StrField(m, TiersMode),
                 StrField(m, Nickname), metadata))
    else None
  }

  lemma NamingRoundTrip(d: Draft, api: ApiVersion)
    ensures var u := Uploaded(d, api);
      NamingOfPayload(CreatePayload(d, api), api) == (u.name, u.productId, u.statementDescriptor)
  {
    PayloadEntry(d, api, Name);
    PayloadEntry(d, api, StatementDescriptor);
    PayloadEntry(d, api, Product);
  }

  /** Decoding a payload only looks at what each key holds. */
  lemma DecodeFields(m: map<Param, Value>, api: ApiVersion, u: Draft)
    requires Id in m && m[Id] == Sym(u.key) && Currency in m && m[Currency] == Str(u.currency)
    requires IntervalCount in m && m[IntervalCount] == Int(u.intervalCount)
    requires TrialPeriodDays in m && m[TrialPeriodDays] == Int(u.trialPeriodDays)
    requires u.constantName.None? && u.active.None?
    requires NamingOfPayload(m, api) == (u.name, u.productId, u.statementDescriptor)
    requires IntField(m, Amount) == u.amount && StrField(m, Interval) == u.interval
    requires (if Metadata in m && m[Metadata].Hash? then Some(m[Metadata].entries) else None) == u.metadata
    requires StrField(m, UsageType) == u.usageType && StrField(m, AggregateUsage) == u.aggregateUsage
    requires StrField(m, BillingScheme) == u.billingScheme && StrField(m, Nickname) == u.nickname
    requires TiersOfPayload(m) == u.tiers && StrField(m, TiersMode) == u.tiersMode
    ensures PlanOfPayload(m, api) == Some(u)
  {
  }

  lemma ScalarsRoundTrip(d: Draft, api: ApiVersion)
    ensures var m := CreatePayload(d, api);
      && Id in m && m[Id] == Sym(d.key) && Currency in m && m[Currency] == Str(d.currency)
      && IntervalCount in m && m[IntervalCount] == Int(d.intervalCount)
      && TrialPeriodDays in m && m[TrialPeriodDays] == Int(d.trialPeriodDays)
      && IntField(m, Amount) == d.amount && StrField(m, Interval) == d.interval
  {
    PayloadEntry(d, api, Id);
    PayloadEntry(d, api, Currency);
    PayloadEntry(d, api, IntervalCount);
    PayloadEntry(d, api, TrialPeriodDays);
    PayloadEntry(d, api, Amount);
    PayloadEntry(d, api, Interval);
  }

  lemma OptionsRoundTrip(d: Draft, api: ApiVersion)
    ensures var m := CreatePayload(d, api);
      && (if Metadata in m && m[Metadata].Hash? then Some(m[Metadata].entries) else None) == d.metadata
      && StrField(m, UsageType) == d.usageType && StrField(m, AggregateUsage) == d.aggregateUsage
      && StrField(m, BillingScheme) == d.billingScheme && StrField(m, Nickname) == d.nickname
      && StrField(m, TiersMode) == d.tiersMode
  {
    PayloadEntry(d, api, Metadata);
    PayloadEntry(d, api, UsageType);
    PayloadEntry(d, api, AggregateUsage);
    PayloadEntry(d, api, BillingScheme);
    PayloadEntry(d, api, Nickname);
    PayloadEntry(d, api, TiersMode);
  }

  lemma TiersFieldRoundTrip(d: Draft, api: ApiVersion)
    ensures TiersOfPayload(CreatePayload(d, api)) == d.tiers
  {
    PayloadEntry(d, api, Tiers);
    if d.tiers.Some? {
      TiersRoundTrip(d.tiers.value);
    }
  }

  lemma UploadedFields(d: Draft, api: ApiVersion)
    ensures var u := Uploaded(d, api);
      && u.key == d.key && u.currency == d.currency && u.intervalCount == d.intervalCount
      && u.trialPeriodDays == d.trialPeriodDays && u.amount == d.amount && u.interval == d.interval
      && u.metadata == d.metadata && u.usageType == d.usageType && u.aggregateUsage == d.aggregateUsage
      && u.billingScheme == d.billingScheme && u.nickname == d.nickname && u.tiers == d.tiers
      && u.tiersMode == d.tiersMode && u.constantName.None? && u.active.None?
  {
  }

  /** The payload carries every uploaded attribute faithfully (tiers in
      order, with their flat amounts and unbounded last tier): reading it
      back gives the uploaded part of the plan. */
  lemma {:induction false} PayloadRoundTrip(d: Draft, api: ApiVersion)
    ensures PlanOfPayload(CreatePayload(d, api), api) == Some(Uploaded(d, api))
  {
    ScalarsRoundTrip(d, api);
    OptionsRoundTrip(d, api);
    TiersFieldRoundTrip(d, api);
    NamingRoundTrip(d, api);
    UploadedFields(d, api);
    DecodeFields(CreatePayload(d, api), api, Uploaded(d, api));
  }

  /** Two plans with the same payload agree on everything the upload carries. */
  lemma PayloadDeterminesPlan(d1: Draft, d2: Draft, api: ApiVersion)
    requires CreatePayload(d1, api) == CreatePayload(d2, api)
    ensures Uploaded(d1, api) == Uploaded(d2, api)
  {
    PayloadRoundTrip(d1, api);
    PayloadRoundTrip(d2, api);
  }

  // ---------------------------------------------------------------------------
  // Upload (`put!`) against the remote `Stripe::Plan`
  // ---------------------------------------------------------------------------

  /** What `Stripe::Plan.retrieve(id)` does: return the plan, raise
      `InvalidRequestError` (not found), or raise some other error. */
  datatype Retrieval = Found | NotFound | RetrieveFailed(message: string)

  /** How `put!` ends: nothing to do, plan created, or an error raised. */
  datatype PutOutcome = AlreadyExists | Created | Failed(message: string)

  /** The remote plan API as the uploader sees it. */
  class RemotePlans {
    /** Ids of the plans the remote has. */
    var existing: set<string>
    /** When set, every retrieval fails with this error (not a not-found). */
    var outage: Option<string>
    /** When set, every creation is refused with this error. */
    var refusal: Option<string>
    /** Every `create` call received, in order. */
    var createCalls: seq<map<Param, Value>>

    constructor (existing: set<string>, outage: Option<string>, refusal: Option<string>)
      ensures this.existing == existing && this.outage == outage && this.refusal == refusal
      ensures createCalls == []
    {
      this.existing := existing;
      this.outage := outage;
      this.refusal := refusal;
      createCalls := [];
    }

    function Retrieve(id: string): Retrieval
      reads this
    {
      if outage.Some? then RetrieveFailed(outage.value)
      else if id in existing then Found
      else NotFound
    }

    /** `Stripe::Plan.create(payload)`: recorded, then stored unless refused. */
    method Create(id: string, payload: map<Param, Value>) returns (error: Option<string>)
      modifies this`existing, this`createCalls
      ensures createCalls == old(createCalls) + [payload]
      ensures error == refusal
      ensures existing == if refusal.None? then old(existing) + {id} else old(existing)
    {
      createCalls := createCalls + [payload];
      error := refusal;
      if refusal.None? {
        existing := existing + {id};
      }
    }
  }

  /** `put!`: retrieve the plan by its key; if found, do nothing; if the
      remote says not found, make exactly one create call with the payload
      for this API version; any other retrieval error escapes without a
      create call. */
  method Put(plan: Draft, api: ApiVersion, remote: RemotePlans) returns (outcome: PutOutcome)
    modifies remote`existing, remote`createCalls
    ensures match old(remote.Retrieve(plan.key))
      case Found =>
        outcome == AlreadyExists && remote.createCalls == old(remote.createCalls)
        && remote.existing == old(remote.existing)
      case NotFound =>
        && remote.createCalls == old(remote.createCalls) + [CreatePayload(plan, api)]
        && remote.existing == (if remote.refusal.None? then old(remote.existing) + {plan.key} else old(remote.existing))
        && outcome == (if remote.refusal.Some? then Failed(remote.refusal.value) else Created)
      case RetrieveFailed(message) =>
        outcome == Failed(message) && remote.createCalls == old(remote.createCalls)
        && remote.existing == old(remote.existing)
    ensures outcome == Created ==> remote.Retrieve(plan.key) == Found
  {
    var found := remote.Retrieve(plan.key);
    match found {
      case Found =>
        outcome := AlreadyExists;
      case NotFound =>
        var error := remote.Create(plan.key, CreatePayload(plan, api));
        outcome := if error.Some? then Failed(error.value) else Created;
      case RetrieveFailed(message) =>
        outcome := Failed(message);
    }
  }

  /** Running `put!` twice creates the plan at most once: the second run
      finds what the first created. */
  method PutTwice(plan: Draft, api: ApiVersion, remote: RemotePlans) returns (first: PutOutcome, second: PutOutcome)
    modifies remote`existing, remote`createCalls
    ensures first == Created ==>
      second == AlreadyExists && |remote.createCalls| == |old(remote.createCalls)| + 1
    ensures first == AlreadyExists ==> second == AlreadyExists && remote.createCalls == old(remote.createCalls)
  {
    first := Put(plan, api, remote);
    second := Put(plan, api, remote);
  }
}
