# stripe-rails: webhook dispatch and plan declarations

This project models two parts of the stripe-rails gem and proves properties
about them in Dafny.

- **Webhook callback dispatch** (`Stripe::Callbacks`, module `Callbacks` in
  `callbacks.dfy`). This covers:
  - the catalog of webhook event types for which callbacks can be
    registered, including `ping`, the catch-all `stripe.event` and the two
    deprecated transfer types;
  - `run_callbacks`, which runs the event's own type and then the catch-all;
  - per type, the critical callbacks, which run first and let an exception
    escape at the first one that raises;
  - then the non-critical callbacks, which always all run. Each of their
    exceptions is contained and logged as two lines: the message and the
    joined backtrace.

  A callback is modelled by what it does when invoked on a target and an
  event: it returns, or it raises with a message and a backtrace. One
  dispatch produces a `Run`. A `Run` holds the invocations in order, the
  lines given to the application logger, and the exception that escapes,
  if any. Two views are proved to agree:
  - the functional specification `RunEvent`;
  - the `Dispatcher` class, whose methods loop over its registered lists,
    append to its log and record its invocations.

- **Plan declarations** (`Stripe.plan`, `Stripe::Plans`, `put!`; module
  `Plans` in `plans.dfy`, fixtures in `plan_fixtures.dfy`). This covers:
  - A declaration seeds a draft with the defaults:
    - currency `usd`;
    - interval count 1;
    - no trial days.
  - It then runs the block's attribute assignments.
  - It validates the result, reporting every broken rule at once. The
    rules are:
    - exactly one of name and product id;
    - an amount unless the plan is tiered;
    - one of the four intervals;
    - a statement descriptor of at most 22 characters;
    - a boolean `active`;
    - the closed sets of usage types, aggregate usages, billing schemes and
      tiers modes;
    - aggregate usage only with metered usage;
    - tiers only with the tiered scheme;
    - a constant name that is a valid Ruby constant once upper-cased.
  - It registers the plan under that constant. The registry supports
    symbol/string and case-agnostic lookup and lists all plans in
    declaration order.
  - `put!` retrieves the plan by id and, only when the remote reports it
    missing, creates it. The create payload depends on the API version:
    - legacy: the name is a top-level field;
    - product-capable: a `product` hash or a product id.

    Tiers are sent as the hashes the block declares, key for key.

  The builder's own source (`lib/stripe/configuration_builder.rb`,
  `lib/stripe/plans.rb`) is not part of this model. Its rules follow the
  tests in `test/plan_builder_spec.rb`, the dummy application's
  declarations in `test/dummy/config/stripe/plans.rb`. Where those are
  silent, the model makes assumptions about Stripe's plan API; they are
  listed under "Left out". The fixture lemmas pin the model to the exact
  payloads those tests expect.

`wrappers.dfy` holds the `Option` datatype used by both modules.

## Model

| member | source | states |
|---|---|---|
| Callbacks.CatalogNamesEachTypeOnce | lib/stripe/callbacks.rb:7-96 | the catalog holds 88 event types and names each of them once. It includes `ping`, the catch-all `stripe.event` and the deprecated `transfer.failed` and `transfer.paid` |
| Callbacks.Invoke | lib/stripe/callbacks.rb:109-124 | invoking one callback records exactly that call. It fails if and only if the callback is critical and raises, and then with that exception. A critical invocation logs nothing; a non-critical one logs two lines when the callback raises and none otherwise |
| Callbacks.RunList | lib/stripe/callbacks.rb:109-124 | running one list never makes more invocations than the list has callbacks. A critical run writes no log line. A non-critical run invokes every callback and never lets an exception escape. The only failure a list can produce is a callback's exception |
| Callbacks.RunTier | lib/stripe/callbacks.rb:109-124 | a tier fails with the missing-list error exactly when the type has no list in that tier, and then invokes and logs nothing. Otherwise it invokes at most the list's callbacks; in the non-critical tier it invokes all of them and does not fail |
| Callbacks.RunType | lib/stripe/callbacks.rb:104-107 | a type without a critical list fails with the missing-list error before anything runs. A type run that does not fail had both lists. When both lists exist, at most their combined length is invoked and any failure is a callback's exception |
| Callbacks.RunEvent | lib/stripe/callbacks.rb:99-102 | an event of an uncatalogued type fails with the missing-list error, invoking and logging nothing, so no catch-all callback runs. A dispatch that does not fail had both lists for its own type and for the catch-all |
| Callbacks.FailureIsFinal | lib/stripe/callbacks.rb:109-113 | once a critical callback has raised, adding more callbacks after it changes nothing: none of them is invoked, and the same exception escapes |
| Callbacks.CriticalCallsInOrder | lib/stripe/callbacks.rb:109-113 | the k-th critical invocation is the k-th callback of the list, with the same type, target and event. A run that does not fail invokes the whole list; one that fails invokes at least one callback |
| Callbacks.CriticalFailsAtFirstRaise | lib/stripe/callbacks.rb:109-113 | a critical run fails if and only if some callback raises. Then the last callback invoked is the first that raised, every earlier one returned, and the failure is its exception |
| Callbacks.CriticalStopsAtFirstRaise | lib/stripe/callbacks.rb:109-113 | critical callbacks are invoked in order with the same target and event, up to and including the first that raises. Its exception is the run's failure, and nothing is logged. The run succeeds if and only if every callback returns, and then all of them are invoked |
| Callbacks.NoncriticalRunsEvery | lib/stripe/callbacks.rb:115-124 | every non-critical callback is invoked, in order, whatever the earlier ones did. No exception escapes. The log is, callback by callback, the message and the joined backtrace of each one that raised |
| Callbacks.TwoLinesPerContainedFailure | lib/stripe/callbacks.rb:115-124 | a non-critical run logs exactly two lines per callback that raised and none per callback that returned |
| Callbacks.CriticalBeforeNoncritical | lib/stripe/callbacks.rb:104-107 | within one type, no critical invocation follows a non-critical one. Every invocation carries that type, the target and the event. The only exception that can escape is the critical list's |
| Callbacks.OwnTypeBeforeCatchAll | lib/stripe/callbacks.rb:99-102 | no invocation from the catch-all lists comes before an invocation from the event's own type |
| Callbacks.CriticalFailureStopsType | lib/stripe/callbacks.rb:104-113 | for any type, the catch-all included, a critical callback that raises ends the type's run: the run is the critical list's run alone and every invocation in it is critical, so no non-critical callback of that type runs |
| Callbacks.CriticalFailureAborts | lib/stripe/callbacks.rb:99-113 | the first critical callback of the event's type that raises aborts the dispatch. Only it and the callbacks before it are invoked, no non-critical or catch-all callback runs, its exception escapes, and nothing is logged |
| Callbacks.InvocationCount | lib/stripe/callbacks.rb:99-124 | when no critical callback raises, the dispatch returns normally and invokes every callback of the four lists: their lengths summed |
| Callbacks.Dispatcher.constructor | lib/stripe/callbacks.rb:7-96 | every catalogued type starts with empty critical and non-critical lists, an empty log and no invocations |
| Callbacks.Dispatcher.Register | lib/stripe/callbacks.rb:5-96 | a callback registered for a catalogued type is appended to that type's critical or non-critical list. Nothing else changes |
| Callbacks.Dispatcher.RunCriticalCallbacks | lib/stripe/callbacks.rb:109-113 | the loop over a type's critical list leaves the invocations, the log and the outcome exactly as `RunTier` on the critical tier specifies. That is `RunList` over the type's list, or the missing-list failure for a type that has none |
| Callbacks.Dispatcher.RunNoncriticalCallbacks | lib/stripe/callbacks.rb:115-124 | the loop over a type's non-critical list rescues and logs each exception. Its result matches `RunTier` on the non-critical tier, so no callback exception escapes |
| Callbacks.Dispatcher.RunTypeCallbacks | lib/stripe/callbacks.rb:104-107 | critical then non-critical for one type. The new state and outcome are those of `RunType` |
| Callbacks.Dispatcher.RunCallbacks | lib/stripe/callbacks.rb:99-102 | the event's own type, then the catch-all type. The new state and outcome are those of `RunEvent`, so every property proved of `RunEvent` holds of the dispatcher |
| Plans.Seed | test/plan_builder_spec.rb:234-246 | a declaration starts from currency `usd`, an interval count of 1 and no trial days, keeps the declared key, and leaves every other attribute unset |
| Plans.Configure | test/plan_builder_spec.rb:6-20 | the attribute assignments of a block never change the key the plan was declared under |
| Plans.ConfigureConcat | test/plan_builder_spec.rb:6-20 | running a block in two parts is running the whole block: later assignments see the earlier ones |
| Plans.UpcaseIgnoresCase | test/plan_builder_spec.rb:33-36 | upper-casing a key gives the same result whether it was written in lower or upper case, and upper-casing twice is upper-casing once |
| Plans.ConstantForRaisesCase | test/plan_builder_spec.rb:25-36 | the constant of a plan is its explicit constant name, or else its key, with every lower-case letter raised: same length, same letters up to case, no lower-case letter left |
| Plans.Validate | test/plan_builder_spec.rb:38-219 | the report lists exactly the rules the draft breaks: a violation is reported if and only if the draft breaks that rule |
| Plans.AcceptsIffNoRuleBroken | test/plan_builder_spec.rb:38-219 | a draft is accepted if and only if it breaks none of the rules |
| Plans.IntervalRule | test/plan_builder_spec.rb:38-86 | an accepted plan stays accepted with an interval of day, week, month or year, and is rejected with any other interval |
| Plans.DescriptorRule | test/plan_builder_spec.rb:88-108 | a statement descriptor is accepted if and only if it has at most 22 characters |
| Plans.ActiveRule | test/plan_builder_spec.rb:110-119 | `active` is accepted if and only if it is a boolean |
| Plans.ClosedSetRules | test/plan_builder_spec.rb:121-176 | a value outside its closed set is rejected for usage type, aggregate usage, billing scheme, tiers mode and interval, whatever else the plan sets |
| Plans.AggregateUsageRule | test/plan_builder_spec.rb:132-153 | an aggregate usage is always rejected with the licensed usage type, and keeps an accepted plan accepted with the metered one |
| Plans.NamingRule | test/plan_builder_spec.rb:199-219 | an accepted plan has a name or a product id, never both. A product id alone can replace the name, and adding a product id to a named plan rejects it |
| Plans.EmptyBlockRule | test/plan_builder_spec.rb:477-481 | an empty block is rejected, with the missing name or product id, the missing amount and the missing interval all reported |
| Plans.AmountRule | test/plan_builder_spec.rb:178-197 | an accepted plan without an amount is tiered, with a non-empty tier list and a tiers mode. A per-unit plan may still set a tiers mode |
| Plans.ConstantNameRule | test/plan_builder_spec.rb:518-529 | an explicit constant name keeps a plan accepted if and only if, upper-cased, it is a valid Ruby constant: an upper-case letter, then letters, digits and underscores |
| Plans.RegisterStores | test/plan_builder_spec.rb:25-36 | after registering a plan, its constant finds it, every other constant keeps its plan, and the earlier order stays a prefix with at most one constant added |
| Plans.RegisterKeepsInvariant | test/plan_builder_spec.rb:25-31 | registering an accepted plan keeps the registry's invariant: only accepted plans, each under its own constant, and every constant listed once in declaration order |
| Plans.PlanRegistry.constructor | test/plan_builder_spec.rb:25-31 | the registry starts empty and satisfies its invariant |
| Plans.PlanRegistry.Declare | test/plan_builder_spec.rb:6-20 | the declared plan is the seed after the block's assignments, in order. If it is accepted, it is registered under its constant name, replacing any earlier plan with that name, and the constant is appended to the order on first registration. Otherwise every violation is reported and the registry is unchanged |
| Plans.PlanRegistry.Lookup | test/plan_builder_spec.rb:33-36 | a lookup returns exactly the plan registered under the key upper-cased, an accepted plan whose constant that is, and finds nothing exactly when no such constant is registered |
| Plans.PlanRegistry.All | test/plan_builder_spec.rb:29-31 | the plans in declaration order: one entry per registered constant, the i-th being the plan of the i-th constant declared, each an accepted plan |
| Plans.LookupIgnoresKeyForm | test/plan_builder_spec.rb:505-516 | a lookup gives the same answer for a symbol or a string key, and for the key in lower or upper case |
| Plans.CreatePayload | test/plan_builder_spec.rb:234-458 | a payload always carries the id, currency, interval count and trial days. It has a product entry exactly under the product-capable API, and a top-level name only under the legacy API for a named plan |
| Plans.PayloadNaming | test/plan_builder_spec.rb:234-378 | the id is the key as a symbol. The legacy API sends the name top-level and no product. The product API sends either the product id or a product hash with the name and the statement descriptor, and no top-level name or descriptor |
| Plans.UnsetAttributesOmitted | test/plan_builder_spec.rb:234-258 | an attribute is in the payload if and only if it is set. Nothing is sent as nil |
| Plans.TiersRoundTrip | test/plan_builder_spec.rb:299-353 | decoding an encoded tier list gives back every tier hash, in order, with all its keys as declared |
| Plans.PlanOfPayload | test/plan_builder_spec.rb:234-458 | a plan read back from a payload takes its key from the payload's id and its currency from the payload's currency, and never has a constant name or `active`, which are not sent |
| Plans.PayloadRoundTrip | test/plan_builder_spec.rb:234-458 | reading a create payload back gives exactly the uploaded attributes of the plan |
| Plans.PayloadDeterminesPlan | test/plan_builder_spec.rb:234-458 | two plans with the same payload agree on every uploaded attribute |
| Plans.RemotePlans.Create | test/plan_builder_spec.rb:224-233 | a create call is recorded with its payload, and the plan exists afterwards unless the remote refuses |
| Plans.Put | test/plan_builder_spec.rb:221-473 | if the plan is found, there is no call and no change. If it is not found, there is exactly one create with the payload for the API version, and the remote's plans gain the key unless it refuses. Any other retrieval error escapes with no create and no change. After a successful create, the plan is found |
| Plans.PutTwice | test/plan_builder_spec.rb:461-473 | a second upload after a successful or no-op first one is a no-op, so a plan is created at most once |
| PlanFixtures.GoldConfigured | test/dummy/config/stripe/plans.rb:1-5 | the `gold` block yields the draft with name Solid Gold, amount 699, monthly, with the defaults |
| PlanFixtures.GoldConstant | test/dummy/config/stripe/plans.rb:1-5 | `gold` is registered as `GOLD` |
| PlanFixtures.GoldAccepted | test/dummy/config/stripe/plans.rb:1-5 | the `gold` declaration is accepted |
| PlanFixtures.SolidGoldConfigured | test/dummy/config/stripe/plans.rb:7-12 | the "Solid Gold" block yields its draft, including the explicit constant name |
| PlanFixtures.SolidGoldConstant | test/dummy/config/stripe/plans.rb:7-12 | "Solid Gold" is registered as `SOLID_GOLD` |
| PlanFixtures.SolidGoldAccepted | test/dummy/config/stripe/plans.rb:7-12 | the "Solid Gold" declaration is accepted |
| PlanFixtures.SolidGoldNeedsConstantName | test/dummy/config/stripe/plans.rb:7-12 | without its constant name, "Solid Gold" would be rejected, because the key upper-cased has a space |
| PlanFixtures.AlternativeCurrencyConfigured | test/dummy/config/stripe/plans.rb:14-19 | the `alternative_currency` block yields its draft in Canadian dollars |
| PlanFixtures.AlternativeCurrencyConstant | test/dummy/config/stripe/plans.rb:14-19 | it is registered as `ALTERNATIVE_CURRENCY` |
| PlanFixtures.AlternativeCurrencyAccepted | test/dummy/config/stripe/plans.rb:14-19 | the declaration is accepted |
| PlanFixtures.MeteredConfigured | test/dummy/config/stripe/plans.rb:21-28 | the `metered` block yields its metered per-unit draft with aggregate usage max |
| PlanFixtures.MeteredConstant | test/dummy/config/stripe/plans.rb:21-28 | it is registered as `METERED` |
| PlanFixtures.MeteredAccepted | test/dummy/config/stripe/plans.rb:21-28 | the declaration is accepted |
| PlanFixtures.TieredConfigured | test/dummy/config/stripe/plans.rb:30-45 | the `tiered` block yields its graduated two-tier draft without an amount |
| PlanFixtures.TieredConstant | test/dummy/config/stripe/plans.rb:30-45 | it is registered as `TIERED` |
| PlanFixtures.TieredAccepted | test/dummy/config/stripe/plans.rb:30-45 | the declaration is accepted although it has no amount |
| PlanFixtures.TieredWithFlatAmountConfigured | test/dummy/config/stripe/plans.rb:47-64 | the `tiered_with_flat_amount` block yields its draft with flat amounts per tier |
| PlanFixtures.TieredWithFlatAmountConstant | test/dummy/config/stripe/plans.rb:47-64 | it is registered as `TIERED_WITH_FLAT_AMOUNT` |
| PlanFixtures.TieredWithFlatAmountAccepted | test/dummy/config/stripe/plans.rb:47-64 | the declaration is accepted |
| PlanFixtures.FixtureConstantsDistinct | test/dummy/config/stripe/plans.rb:1-64 | the six declarations register six distinct constants, so none replaces another |
| PlanFixtures.DeclareGold | test/dummy/config/stripe/plans.rb:1-5 | declaring `gold` in any valid registry registers the `gold` plan under `GOLD` |
| PlanFixtures.DeclareSolidGold | test/dummy/config/stripe/plans.rb:7-12 | declaring "Solid Gold" registers its plan under `SOLID_GOLD` |
| PlanFixtures.DeclareAlternativeCurrency | test/dummy/config/stripe/plans.rb:14-19 | declaring `alternative_currency` registers its plan under `ALTERNATIVE_CURRENCY` |
| PlanFixtures.DeclareMetered | test/dummy/config/stripe/plans.rb:21-28 | declaring `metered` registers its plan under `METERED` |
| PlanFixtures.DeclareTiered | test/dummy/config/stripe/plans.rb:30-45 | declaring `tiered` registers its plan under `TIERED` |
| PlanFixtures.DeclareTieredWithFlatAmount | test/dummy/config/stripe/plans.rb:47-64 | declaring `tiered_with_flat_amount` registers its plan under `TIERED_WITH_FLAT_AMOUNT` |
| PlanFixtures.DeclareDummyPlans | test/dummy/config/stripe/plans.rb:1-64 | loading the plan file registers its six plans, one after the other in file order, and keeps the registry valid |
| PlanFixtures.DummyPlansFromScratch | test/dummy/config/stripe/plans.rb:1-64 | loaded into an empty registry, the plan file leaves exactly its six plans, each under its own constant, listed in file order |
| PlanFixtures.PrimoConstant | test/plan_builder_spec.rb:25-27 | `primo` is registered as `PRIMO`, a valid constant |
| PlanFixtures.PrimoAccepted | test/plan_builder_spec.rb:6-20 | the fully specified `primo` plan, metered per-unit with a tiers mode, is accepted |
| PlanFixtures.PrimoPlanIsNoConstant | test/plan_builder_spec.rb:483-529 | `PRIMO_PLAN` is a valid constant; `PRIMO PLAN`, with a space, and `_PRIMO`, with no leading letter, are not |
| PlanFixtures.PrimoRenamed | test/plan_builder_spec.rb:483-529 | the plan stays accepted with constant name `PRIMO_PLAN` and is rejected with `PRIMO PLAN` |
| PlanFixtures.GoldLegacyPayload | test/plan_builder_spec.rb:234-246 | the legacy payload of `gold` is exactly the id, currency, name, amount, interval, interval count and trial days the test expects |
| PlanFixtures.AlternativeCurrencyLegacyPayload | test/plan_builder_spec.rb:247-258 | the legacy payload of `alternative_currency` carries currency `cad` and the expected fields |
| PlanFixtures.SolidGoldLegacyPayload | test/plan_builder_spec.rb:544-554 | "Solid Gold" is uploaded with the id `:"Solid Gold"`, not its constant name, and with the expected fields |
| PlanFixtures.GoldProductPayload | test/plan_builder_spec.rb:264-278 | the product-API payload of `gold` nests the name and a nil statement descriptor in a product hash |
| PlanFixtures.GoldProductIdPayload | test/plan_builder_spec.rb:356-378 | with a product id, the payload sends that id as the product |
| PlanFixtures.MeteredProductPayload | test/plan_builder_spec.rb:280-297 | the metered payload adds usage type, aggregate usage and billing scheme |
| PlanFixtures.GraduatedTiersSent | test/plan_builder_spec.rb:299-324 | the tiered fixture's tiers are sent as the hashes declared, `up_to` nil on the last tier included |
| PlanFixtures.FlatAmountTiersSent | test/plan_builder_spec.rb:326-353 | the flat-amount tiers are sent as declared, each with its `flat_amount` |
| PlanFixtures.TieredProductPayload | test/plan_builder_spec.rb:299-324 | the tiered payload has no amount and carries the scheme, tiers mode and tiers |
| PlanFixtures.TieredWithFlatAmountProductPayload | test/plan_builder_spec.rb:326-353 | the flat-amount tiered payload is exactly the one the test expects |

## Left out

- HTTP, the Stripe client and its headers are left out. The remote plan API is a small `RemotePlans` class holding a set of ids, a retrieval error and a creation refusal. The API version is an `ApiVersion` parameter instead of being read from response headers. The dispatch does not read `api_version` at all.
- The Rails logger is not modelled as such: the lines passed to it are a sequence in the dispatcher. Backtraces are opaque strings, joined with a newline.
- The callback builder (`Stripe::Callbacks::Builder`) is not part of this model:
  - the methods it generates per type become `Dispatcher.Register` with a tier flag;
  - dispatching an event of an uncatalogued type fails with `NoListFor`, which stands for Ruby's `nil.each` error on the missing list, and no catch-all callback runs. This assumes the registry is a plain hash returning nil for a missing type. Were it a hash with a default empty list, an event of a type outside the catalog (Stripe sends such types) would run no callbacks of its own and would then run the catch-all lists; the model does not capture that alternative;
  - `Register` requires a catalogued type, as only those have registration methods.
- Ruby constant mechanics (`const_set`, `remove_const`) are left out. The registry is a map from constant name to plan.
- Upper- and lower-casing cover ASCII letters only.
- `Plans.Put`: a failed create is reported as `Failed`. A later upload tries again, so `PutTwice` promises at most one create only after a successful or no-op first upload.
- The batch `put!` over every plan (`Stripe::Plans.put!`), the rake tasks and the other configuration objects (coupons, products, prices) are outside the modelled core.
- `Plans.Validate` adds four rules that no test exercises. They are assumptions of this model about Stripe's plan API:
  - an interval count of at least 1;
  - no negative trial days;
  - tiers only with the tiered scheme;
  - a tiered plan needs a non-empty tier list and a tiers mode.

  A tiers mode on a per-unit plan is accepted, because the `primo` test declares exactly that.
- `Plans.CreatePayload`:
  - `active` and the constant name are never sent;
  - under the legacy API a product id is not sent, and the statement descriptor is sent top-level when set;
  - these follow the tests; the rest is assumed.
