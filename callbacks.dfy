/**
  The webhook callback dispatcher of `Stripe::Callbacks`.

  The module declares a fixed catalog of event-type names; each type owns two
  ordered callback lists, one critical and one non-critical. Dispatching an
  event runs the lists of the event's own type and then those of the
  catch-all type "stripe.event". Critical callbacks run unprotected: the first
  one that raises aborts the whole dispatch and its error reaches the caller.
  Non-critical callbacks run one by one inside a rescue: a failure writes two
  lines to the application log (the message, then the backtrace joined by
  newlines) and the next callback still runs.

  The recursive functions RunList, RunTier, RunType and RunEvent specify what a
  dispatch does; the Dispatcher class walks the lists with loops and is proved
  to do exactly that; the lemmas state the ordering and fault-isolation
  properties of the specification.
 */
module Callbacks {
  import opened Wrappers

  // ---------------------------------------------------------------------------
  // The event-type catalog, grouped by resource in declaration order
  // ---------------------------------------------------------------------------

  /** The account, application fee, balance and charge types (callbacks.rb lines 7-27). */
  const AccountToChargeTypes: seq<string> :=
    [ "account.updated",
      "account.application.deauthorized",
      "account.external_account.created",
      "account.external_account.deleted",
      "account.external_account.updated",
      "application_fee.created",
      "application_fee.refunded",
      "application_fee.refund.updated",
      "balance.available",
      "charge.captured",
      "charge.failed",
      "charge.pending",
      "charge.refunded",
      "charge.succeeded",
      "charge.updated",
      "charge.dispute.closed",
      "charge.dispute.created",
      "charge.dispute.funds_reinstated",
      "charge.dispute.funds_withdrawn",
      "charge.dispute.updated",
      "charge.refund.updated" ]

  /** The checkout session, coupon and customer types (callbacks.rb lines 28-45). */
  const CheckoutToCustomerTypes: seq<string> :=
    [ "checkout.session.completed",
      "coupon.created",
      "coupon.deleted",
      "coupon.updated",
      "customer.created",
      "customer.deleted",
      "customer.updated",
      "customer.discount.created",
      "customer.discount.deleted",
      "customer.discount.updated",
      "customer.source.created",
      "customer.source.deleted",
      "customer.source.expiring",
      "customer.source.updated",
      "customer.subscription.created",
      "customer.subscription.deleted",
      "customer.subscription.trial_will_end",
      "customer.subscription.updated" ]

  /** The file, invoice, invoice item, order and order return types (callbacks.rb lines 46-63). */
  const FileToOrderTypes: seq<string> :=
    [ "file.created",
      "invoice.created",
      "invoice.finalized",
      "invoice.marked_uncollectible",
      "invoice.payment_failed",
      "invoice.payment_succeeded",
      "invoice.sent",
      "invoice.upcoming",
      "invoice.updated",
      "invoice.voided",
      "invoiceitem.created",
      "invoiceitem.deleted",
      "invoiceitem.updated",
      "order.created",
      "order.payment_failed",
      "order.payment_succeeded",
      "order.updated",
      "order_return.created" ]

  /** The payout, plan, product, recipient, review, sigma and SKU types (callbacks.rb lines 64-83). */
  const PayoutToSkuTypes: seq<string> :=
    [ "payout.canceled",
      "payout.created",
      "payout.failed",
      "payout.paid",
      "payout.updated",
      "plan.created",
      "plan.deleted",
      "plan.updated",
      "product.created",
      "product.deleted",
      "product.updated",
      "recipient.created",
      "recipient.deleted",
      "recipient.updated",
      "review.closed",
      "review.opened",
      "sigma.scheduled_query_run.created",
      "sku.created",
      "sku.deleted",
      "sku.updated" ]

  /** The source, transfer, ping, catch-all and deprecated transfer types (callbacks.rb lines 84-96). */
  const SourceToDeprecatedTypes: seq<string> :=
    [ "source.canceled",
      "source.chargeable",
      "source.failed",
      "source.transaction.created",
      "transfer.created",
      "transfer.reversed",
      "transfer.updated",
      "ping",
      "stripe.event",
      "transfer.failed",
      "transfer.paid" ]

  /** Every event type declared with `callback`, in declaration order. */
  const Catalog: seq<string> :=
    AccountToChargeTypes + CheckoutToCustomerTypes + FileToOrderTypes
    + PayoutToSkuTypes + SourceToDeprecatedTypes

  /** The catch-all type whose lists run for every event. */
  const CatchAll: string := "stripe.event"

  /** No name occurs twice in `names`. */
  ghost predicate NamesEachOnce(names: seq<string>)
  {
    forall i, j :: 0 <= i < j < |names| ==> names[i] != names[j]
  }

  /** No name of `a` occurs in `b`. */
  ghost predicate Apart(a: seq<string>, b: seq<string>)
  {
    forall i, j :: 0 <= i < |a| && 0 <= j < |b| ==> a[i] != b[j]
  }

  lemma {:induction false} NamesEachOnceConcat(a: seq<string>, b: seq<string>)
    requires NamesEachOnce(a) && NamesEachOnce(b) && Apart(a, b)
    ensures NamesEachOnce(a + b)
  {
    forall i, j | 0 <= i < j < |a + b|
      ensures (a + b)[i] != (a + b)[j]
    {
      if j < |a| {
        assert (a + b)[i] == a[i] && (a + b)[j] == a[j];
      } else if |a| <= i {
        assert (a + b)[i] == b[i - |a|] && (a + b)[j] == b[j - |a|];
      } else {
        assert (a + b)[i] == a[i] && (a + b)[j] == b[j - |a|];
      }
    }
  }

  lemma {:induction false} ApartConcat(a: seq<string>, b: seq<string>, c: seq<string>)
    requires Apart(a, c) && Apart(b, c)
    ensures Apart(a + b, c)
  {
    forall i, j | 0 <= i < |a + b| && 0 <= j < |c|
      ensures (a + b)[i] != c[j]
    {
      if i < |a| {
        assert (a + b)[i] == a[i];
      } else {
        assert (a + b)[i] == b[i - |a|];
      }
    }
  }

  // Distinctness is proved group by group and pair by pair: the solver
  // compares literal strings, and one obligation over the whole catalog is
  // beyond its budget.

  lemma AccountToChargeOnce() ensures forall i, j :: 0 <= i < j < |AccountToChargeTypes| ==> AccountToChargeTypes[i] != AccountToChargeTypes[j] {}
  lemma CheckoutToCustomerOnce() ensures forall i, j :: 0 <= i < j < |CheckoutToCustomerTypes| ==> CheckoutToCustomerTypes[i] != CheckoutToCustomerTypes[j] {}
  lemma FileToOrderOnce() ensures forall i, j :: 0 <= i < j < |FileToOrderTypes| ==> FileToOrderTypes[i] != FileToOrderTypes[j] {}
  lemma PayoutToSkuOnce() ensures forall i, j :: 0 <= i < j < |PayoutToSkuTypes| ==> PayoutToSkuTypes[i] != PayoutToSkuTypes[j] {}
  lemma SourceToDeprecatedOnce() ensures forall i, j :: 0 <= i < j < |SourceToDeprecatedTypes| ==> SourceToDeprecatedTypes[i] != SourceToDeprecatedTypes[j] {}

  lemma AccountToChargeApartCheckoutToCustomer() ensures Apart(AccountToChargeTypes, CheckoutToCustomerTypes) {}
  lemma AccountToChargeApartFileToOrder() ensures Apart(AccountToChargeTypes, FileToOrderTypes) {}
  lemma CheckoutToCustomerApartFileToOrder() ensures Apart(CheckoutToCustomerTypes, FileToOrderTypes) {}
  lemma AccountToChargeApartPayoutToSku() ensures Apart(AccountToChargeTypes, PayoutToSkuTypes) {}
  lemma CheckoutToCustomerApartPayoutToSku() ensures Apart(CheckoutToCustomerTypes, PayoutToSkuTypes) {}
  lemma FileToOrderApartPayoutToSku() ensures Apart(FileToOrderTypes, PayoutToSkuTypes) {}
  lemma AccountToChargeApartSourceToDeprecated() ensures Apart(AccountToChargeTypes, SourceToDeprecatedTypes) {}
  lemma CheckoutToCustomerApartSourceToDeprecated() ensures Apart(CheckoutToCustomerTypes, SourceToDeprecatedTypes) {}
  lemma FileToOrderApartSourceToDeprecated() ensures Apart(FileToOrderTypes, SourceToDeprecatedTypes) {}
  lemma PayoutToSkuApartSourceToDeprecated() ensures Apart(PayoutToSkuTypes, SourceToDeprecatedTypes) {}

  /** The catalog is a fixed list of 88 types that names each type once and
      includes "ping", the catch-all type and the two deprecated transfer types. */
  lemma CatalogNamesEachTypeOnce()
    ensures |Catalog| == 88
    ensures NamesEachOnce(Catalog)
    ensures "ping" in Catalog && CatchAll in Catalog
    ensures "transfer.failed" in Catalog && "transfer.paid" in Catalog
  {
    AccountToChargeOnce();
    CheckoutToCustomerOnce();
    FileToOrderOnce();
    PayoutToSkuOnce();
    SourceToDeprecatedOnce();
    var done := AccountToChargeTypes;
    AccountToChargeApartCheckoutToCustomer();
    var apart := AccountToChargeTypes;
    NamesEachOnceConcat(done, CheckoutToCustomerTypes);
    done := done + CheckoutToCustomerTypes;
    AccountToChargeApartFileToOrder();
    apart := AccountToChargeTypes;
    CheckoutToCustomerApartFileToOrder();
    ApartConcat(apart, CheckoutToCustomerTypes, FileToOrderTypes);
    apart := apart + CheckoutToCustomerTypes;
    NamesEachOnceConcat(done, FileToOrderTypes);
    done := done + FileToOrderTypes;
    AccountToChargeApartPayoutToSku();
    apart := AccountToChargeTypes;
    CheckoutToCustomerApartPayoutToSku();
    ApartConcat(apart, CheckoutToCustomerTypes, PayoutToSkuTypes);
    apart := apart + CheckoutToCustomerTypes;
    FileToOrderApartPayoutToSku();
    ApartConcat(apart, FileToOrderTypes, PayoutToSkuTypes);
    apart := apart + FileToOrderTypes;
    NamesEachOnceConcat(done, PayoutToSkuTypes);
    done := done + PayoutToSkuTypes;
    AccountToChargeApartSourceToDeprecated();
    apart := AccountToChargeTypes;
    CheckoutToCustomerApartSourceToDeprecated();
    ApartConcat(apart, CheckoutToCustomerTypes, SourceToDeprecatedTypes);
    apart := apart + CheckoutToCustomerTypes;
    FileToOrderApartSourceToDeprecated();
    ApartConcat(apart, FileToOrderTypes, SourceToDeprecatedTypes);
    apart := apart + FileToOrderTypes;
    PayoutToSkuApartSourceToDeprecated();
    ApartConcat(apart, PayoutToSkuTypes, SourceToDeprecatedTypes);
    apart := apart + PayoutToSkuTypes;
    NamesEachOnceConcat(done, SourceToDeprecatedTypes);
    done := done + SourceToDeprecatedTypes;
    assert done == Catalog;
  }


  // ---------------------------------------------------------------------------
  // Events, callbacks and what one dispatch does
  // ---------------------------------------------------------------------------

  /** An incoming webhook event: its type name and an opaque payload. */
  datatype Event = Event(eventType: string, payload: string)

  /** The object the callbacks are run against (opaque here). */
  datatype Target = Target(handle: nat)

  /** A Ruby exception: message and backtrace lines. */
  datatype Exception = Exception(message: string, backtrace: seq<string>)

  /** What calling a callback does: return, or raise an exception. */
  datatype Outcome = Returned | Raised(error: Exception)

  /** A registered callback; `body` gives the outcome of `callback.call(target, evt)`. */
  datatype Callback = Callback(id: nat, body: (Target, Event) -> Outcome)

  datatype Tier = Critical | Noncritical

  /** One invocation: which callback, from which list, with which arguments. */
  datatype Call = Call(callback: Callback, tier: Tier, listType: string, target: Target, evt: Event)

  /** What escapes a dispatch: a critical callback's exception, or the error of
      looking up the lists of a type that has none (`nil.each`). */
  datatype Failure = CallbackRaised(error: Exception) | NoListFor(eventType: string)

  /** The effect of running some callbacks: the invocations in order, the lines
      written to the log, and the failure that escaped, if any. */
  datatype Run = Run(calls: seq<Call>, log: seq<string>, failure: Option<Failure>)

  const Quiet: Run := Run([], [], None)

  /** `a` followed by `b`, unless `a` raised: then nothing of `b` happens. */
  function Then(a: Run, b: Run): Run
  {
    if a.failure.Some? then a else Run(a.calls + b.calls, a.log + b.log, b.failure)
  }

  /** Ruby's `Array#join(sep)`. */
  function Join(parts: seq<string>, sep: string): string
  {
    if |parts| == 0 then ""
    else if |parts| == 1 then parts[0]
    else parts[0] + sep + Join(parts[1..], sep)
  }

  /** What the rescue clause of a non-critical callback logs for an outcome. */
  function LogLines(outcome: Outcome): seq<string>
  {
    match outcome
    case Returned => []
    case Raised(e) => [e.message, Join(e.backtrace, "\n")]
  }

  /** Calling one callback of a list: a critical failure escapes; a
      non-critical one is logged and contained. */
  function Invoke(cb: Callback, tier: Tier, listType: string, target: Target, evt: Event): (r: Run)
    ensures r.calls == [Call(cb, tier, listType, target, evt)]
    ensures r.failure.Some? <==> tier == Critical && cb.body(target, evt).Raised?
    ensures r.failure.Some? ==> r.failure == Some(CallbackRaised(cb.body(target, evt).error))
    ensures tier == Critical ==> r.log == []
    ensures tier == Noncritical ==> |r.log| == (if cb.body(target, evt).Raised? then 2 else 0)
  {
    var call := Call(cb, tier, listType, target, evt);
    match cb.body(target, evt)
    case Returned => Run([call], [], None)
    case Raised(e) =>
      if tier == Critical then Run([call], [], Some(CallbackRaised(e)))
      else Run([call], LogLines(Raised(e)), None)
  }

  /** Running a whole list in order (the `each` loops of the two runners). */
  function RunList(tier: Tier, cbs: seq<Callback>, listType: string, target: Target, evt: Event): (r: Run)
    ensures |r.calls| <= |cbs|
    ensures tier == Critical ==> r.log == []
    ensures tier == Noncritical ==> r.failure == None && |r.calls| == |cbs|
    ensures r.failure.Some? ==> r.failure.value.CallbackRaised?
    decreases |cbs|
  {
    if cbs == [] then Quiet
    else Then(RunList(tier, cbs[..|cbs| - 1], listType, target, evt),
              Invoke(cbs[|cbs| - 1], tier, listType, target, evt))
  }

  /** `run_critical_callbacks` / `run_noncritical_callbacks`: the list
      registered for `listType` in `lists`, or the `nil.each` error. */
  function RunTier(tier: Tier, lists: map<string, seq<Callback>>, listType: string, target: Target, evt: Event): (r: Run)
    ensures r.failure == Some(NoListFor(listType)) <==> listType !in lists
    ensures listType !in lists ==> r.calls == [] && r.log == []
    ensures listType in lists ==> |r.calls| <= |lists[listType]|
    ensures tier == Noncritical && listType in lists ==> r.failure == None && |r.calls| == |lists[listType]|
  {
    if listType in lists then RunList(tier, lists[listType], listType, target, evt)
    else Run([], [], Some(NoListFor(listType)))
  }

  /** `_run_callbacks`: the critical list, then the non-critical one. */
  function RunType(critical: map<string, seq<Callback>>, noncritical: map<string, seq<Callback>>,
                   listType: string, target: Target, evt: Event): (r: Run)
    ensures listType !in critical ==> r == Run([], [], Some(NoListFor(listType)))
    ensures r.failure.None? ==> listType in critical && listType in noncritical
    ensures listType in critical && listType in noncritical ==>
      |r.calls| <= |critical[listType]| + |noncritical[listType]| && (r.failure.Some? ==> r.failure.value.CallbackRaised?)
  {
    Then(RunTier(Critical, critical, listType, target, evt),
         RunTier(Noncritical, noncritical, listType, target, evt))
  }

  /** `run_callbacks`: the event's own type, then the catch-all type. */
  function RunEvent(critical: map<string, seq<Callback>>, noncritical: map<string, seq<Callback>>,
                    evt: Event, target: Target): (r: Run)
    ensures evt.eventType !in critical ==> r == Run([], [], Some(NoListFor(evt.eventType)))
    ensures r.failure.None? ==>
      evt.eventType in critical && evt.eventType in noncritical && CatchAll in critical && CatchAll in noncritical
  {
    Then(RunType(critical, noncritical, evt.eventType, target, evt),
         RunType(critical, noncritical, CatchAll, target, evt))
  }

  // ---------------------------------------------------------------------------
  // Properties of one list
  // ---------------------------------------------------------------------------

  /** Running one more callback of a list extends the run by that call. */
  lemma RunListStep(tier: Tier, cbs: seq<Callback>, i: nat, listType: string, target: Target, evt: Event)
    requires i < |cbs|
    ensures RunList(tier, cbs[..i + 1], listType, target, evt)
         == Then(RunList(tier, cbs[..i], listType, target, evt), Invoke(cbs[i], tier, listType, target, evt))
  {
    assert cbs[..i + 1][..i] == cbs[..i];
  }

  /** Once a prefix of a list has raised, the rest of the list does nothing. */
  lemma {:induction false} FailureIsFinal(tier: Tier, cbs: seq<Callback>, n: nat, listType: string, target: Target, evt: Event)
    requires n <= |cbs|
    requires RunList(tier, cbs[..n], listType, target, evt).failure.Some?
    ensures RunList(tier, cbs, listType, target, evt) == RunList(tier, cbs[..n], listType, target, evt)
    decreases |cbs| - n
  {
    if n < |cbs| {
      assert cbs[..|cbs| - 1][..n] == cbs[..n];
      FailureIsFinal(tier, cbs[..|cbs| - 1], n, listType, target, evt);
    } else {
      assert cbs[..n] == cbs;
    }
  }

  /** Critical callbacks are invoked in list order with the same target and
      event; a run that does not fail invokes all of them, one that fails
      invokes at least one. */
  lemma {:induction false} CriticalCallsInOrder(cbs: seq<Callback>, listType: string, target: Target, evt: Event)
    ensures var r := RunList(Critical, cbs, listType, target, evt);
      && (forall k :: 0 <= k < |r.calls| ==> r.calls[k] == Call(cbs[k], Critical, listType, target, evt))
      && (r.failure.None? ==> |r.calls| == |cbs|)
      && (r.failure.Some? ==> 0 < |r.calls|)
    decreases |cbs|
  {
    if cbs != [] {
      var init := cbs[..|cbs| - 1];
      CriticalCallsInOrder(init, listType, target, evt);
      var p := RunList(Critical, init, listType, target, evt);
      var q := Invoke(cbs[|cbs| - 1], Critical, listType, target, evt);
      assert RunList(Critical, cbs, listType, target, evt) == Then(p, q);
      assert forall k :: 0 <= k < |init| ==> cbs[k] == init[k];
    }
  }

  /** A critical run fails exactly when some callback raises, and then with
      the exception of the last callback it invoked, every earlier one having
      returned. */
  lemma {:induction false} CriticalFailsAtFirstRaise(cbs: seq<Callback>, listType: string, target: Target, evt: Event)
    ensures var r := RunList(Critical, cbs, listType, target, evt);
      && (r.failure.None? <==> forall k :: 0 <= k < |cbs| ==> cbs[k].body(target, evt) == Returned)
      && (r.failure.Some? ==>
            && 0 < |r.calls| <= |cbs|
            && (forall k :: 0 <= k < |r.calls| - 1 ==> cbs[k].body(target, evt) == Returned)
            && cbs[|r.calls| - 1].body(target, evt).Raised?
            && r.failure == Some(CallbackRaised(cbs[|r.calls| - 1].body(target, evt).error)))
    decreases |cbs|
  {
    if cbs != [] {
      var init := cbs[..|cbs| - 1];
      CriticalFailsAtFirstRaise(init, listType, target, evt);
      CriticalCallsInOrder(init, listType, target, evt);
      var p := RunList(Critical, init, listType, target, evt);
      var q := Invoke(cbs[|cbs| - 1], Critical, listType, target, evt);
      assert RunList(Critical, cbs, listType, target, evt) == Then(p, q);
      assert forall k :: 0 <= k < |init| ==> cbs[k] == init[k];
    }
  }

  /** Critical callbacks are invoked in list order with the same target and
      event, up to and including the first one that raises; that exception is
      the failure of the run, and nothing is logged. */
  lemma CriticalStopsAtFirstRaise(cbs: seq<Callback>, listType: string, target: Target, evt: Event)
    ensures var r := RunList(Critical, cbs, listType, target, evt);
      && r.log == []
      && |r.calls| <= |cbs|
      && (forall k :: 0 <= k < |r.calls| ==> r.calls[k] == Call(cbs[k], Critical, listType, target, evt))
      && (r.failure.None? <==> forall k :: 0 <= k < |cbs| ==> cbs[k].body(target, evt) == Returned)
      && (r.failure.None? ==> |r.calls| == |cbs|)
      && (r.failure.Some? ==>
            && 0 < |r.calls|
            && (forall k :: 0 <= k < |r.calls| - 1 ==> cbs[k].body(target, evt) == Returned)
            && cbs[|r.calls| - 1].body(target, evt).Raised?
            && r.failure == Some(CallbackRaised(cbs[|r.calls| - 1].body(target, evt).error)))
  {
    CriticalCallsInOrder(cbs, listType, target, evt);
    CriticalFailsAtFirstRaise(cbs, listType, target, evt);
  }

  /** Flattening a sequence of log chunks. */
  function Flatten(chunks: seq<seq<string>>): seq<string>
  {
    if chunks == [] then [] else chunks[0] + Flatten(chunks[1..])
  }

  lemma {:induction false} FlattenSnoc(chunks: seq<seq<string>>, last: seq<string>)
    ensures Flatten(chunks + [last]) == Flatten(chunks) + last
    decreases |chunks|
  {
    if chunks != [] {
      assert (chunks + [last])[1..] == chunks[1..] + [last];
      FlattenSnoc(chunks[1..], last);
    }
  }

  /** The lines the rescue clauses write for a list of non-critical callbacks. */
  function ContainedLog(cbs: seq<Callback>, target: Target, evt: Event): seq<string>
  {
    Flatten(seq(|cbs|, k requires 0 <= k < |cbs| => LogLines(cbs[k].body(target, evt))))
  }

  /** Every non-critical callback is invoked, in order, with the same target
      and event, whatever the earlier ones did; the run never raises; the log
      holds, callback by callback, the message and the joined backtrace of each
      one that raised and nothing for those that returned. */
  lemma {:induction false} NoncriticalRunsEvery(cbs: seq<Callback>, listType: string, target: Target, evt: Event)
    ensures var r := RunList(Noncritical, cbs, listType, target, evt);
      && r.failure == None
      && |r.calls| == |cbs|
      && (forall k :: 0 <= k < |cbs| ==> r.calls[k] == Call(cbs[k], Noncritical, listType, target, evt))
      && r.log == ContainedLog(cbs, target, evt)
    decreases |cbs|
  {
    if cbs != [] {
      var init := cbs[..|cbs| - 1];
      NoncriticalRunsEvery(init, listType, target, evt);
      var chunks := seq(|cbs|, k requires 0 <= k < |cbs| => LogLines(cbs[k].body(target, evt)));
      var initChunks := seq(|init|, k requires 0 <= k < |init| => LogLines(init[k].body(target, evt)));
      assert chunks == initChunks + [LogLines(cbs[|cbs| - 1].body(target, evt))];
      FlattenSnoc(initChunks, LogLines(cbs[|cbs| - 1].body(target, evt)));
    }
  }

  /** The number of callbacks in `cbs` that raise. */
  function CountRaised(cbs: seq<Callback>, target: Target, evt: Event): nat
  {
    if cbs == [] then 0
    else CountRaised(cbs[..|cbs| - 1], target, evt) + (if cbs[|cbs| - 1].body(target, evt).Raised? then 1 else 0)
  }

  /** Each contained failure adds exactly two log lines; successes add none. */
  lemma {:induction false} TwoLinesPerContainedFailure(cbs: seq<Callback>, listType: string, target: Target, evt: Event)
    ensures |RunList(Noncritical, cbs, listType, target, evt).log| == 2 * CountRaised(cbs, target, evt)
    decreases |cbs|
  {
    if cbs != [] {
      TwoLinesPerContainedFailure(cbs[..|cbs| - 1], listType, target, evt);
    }
  }

  // ---------------------------------------------------------------------------
  // Properties of a whole dispatch
  // ---------------------------------------------------------------------------

  /** Within one type, every critical callback is invoked before any
      non-critical one, every invocation comes from that type's lists with the
      dispatched target and event, and only a critical failure can escape. */
  lemma CriticalBeforeNoncritical(critical: map<string, seq<Callback>>, noncritical: map<string, seq<Callback>>,
                                  listType: string, target: Target, evt: Event)
    requires listType in critical && listType in noncritical
    ensures var r := RunType(critical, noncritical, listType, target, evt);
      && (forall i, j :: 0 <= i < j < |r.calls| && r.calls[j].tier == Critical ==> r.calls[i].tier == Critical)
      && (forall k :: 0 <= k < |r.calls| ==>
            r.calls[k].listType == listType && r.calls[k].target == target && r.calls[k].evt == evt)
      && r.failure == RunList(Critical, critical[listType], listType, target, evt).failure
  {
    CriticalStopsAtFirstRaise(critical[listType], listType, target, evt);
    NoncriticalRunsEvery(noncritical[listType], listType, target, evt);
  }

  /** The event's own type is fully processed before any catch-all callback
      runs: no invocation from the catch-all lists precedes one from the
      event's own lists. */
  lemma OwnTypeBeforeCatchAll(critical: map<string, seq<Callback>>, noncritical: map<string, seq<Callback>>,
                              evt: Event, target: Target)
    requires evt.eventType != CatchAll
    requires evt.eventType in critical && evt.eventType in noncritical
    requires CatchAll in critical && CatchAll in noncritical
    ensures var r := RunEvent(critical, noncritical, evt, target);
      forall i, j :: 0 <= i < j < |r.calls| && r.calls[i].listType == CatchAll ==> r.calls[j].listType == CatchAll
  {
    CriticalBeforeNoncritical(critical, noncritical, evt.eventType, target, evt);
    CriticalBeforeNoncritical(critical, noncritical, CatchAll, target, evt);
  }

  /** Within any one type, the catch-all included, a critical callback that
      raises ends that type's run: the run is the critical list's run alone,
      so no non-critical callback of the type is invoked. */
  lemma CriticalFailureStopsType(critical: map<string, seq<Callback>>, noncritical: map<string, seq<Callback>>,
                                 listType: string, target: Target, evt: Event)
    requires listType in critical
    requires RunList(Critical, critical[listType], listType, target, evt).failure.Some?
    ensures var r := RunType(critical, noncritical, listType, target, evt);
      && r == RunList(Critical, critical[listType], listType, target, evt)
      && forall k :: 0 <= k < |r.calls| ==> r.calls[k].tier == Critical
  {
    CriticalCallsInOrder(critical[listType], listType, target, evt);
  }

  /** The first critical callback of the event's own type that raises aborts
      the dispatch: the callbacks before it and it itself are the only
      invocations (no later critical, no non-critical, no catch-all one), and
      its exception is what the caller sees. */
  lemma CriticalFailureAborts(critical: map<string, seq<Callback>>, noncritical: map<string, seq<Callback>>,
                              evt: Event, target: Target, k: nat)
    requires evt.eventType in critical
    requires k < |critical[evt.eventType]|
    requires critical[evt.eventType][k].body(target, evt).Raised?
    requires forall m :: 0 <= m < k ==> critical[evt.eventType][m].body(target, evt) == Returned
    ensures var r := RunEvent(critical, noncritical, evt, target);
      && r.failure == Some(CallbackRaised(critical[evt.eventType][k].body(target, evt).error))
      && |r.calls| == k + 1
      && (forall m :: 0 <= m <= k ==> r.calls[m] == Call(critical[evt.eventType][m], Critical, evt.eventType, target, evt))
      && r.log == []
  {
    var cbs := critical[evt.eventType];
    CriticalStopsAtFirstRaise(cbs, evt.eventType, target, evt);
    var r := RunList(Critical, cbs, evt.eventType, target, evt);
    assert r.failure.Some? by {
      assert cbs[k].body(target, evt) != Returned;
    }
  }

  /** When no critical callback raises, a dispatch invokes every callback of
      the four lists, so the number of invocations is the sum of their lengths
      (for an event of the catch-all type itself, its lists run twice), and
      it returns normally. */
  lemma InvocationCount(critical: map<string, seq<Callback>>, noncritical: map<string, seq<Callback>>,
                        evt: Event, target: Target)
    requires evt.eventType in critical && evt.eventType in noncritical
    requires CatchAll in critical && CatchAll in noncritical
    requires forall cb :: cb in critical[evt.eventType] ==> cb.body(target, evt) == Returned
    requires forall cb :: cb in critical[CatchAll] ==> cb.body(target, evt) == Returned
    ensures var r := RunEvent(critical, noncritical, evt, target);
      && r.failure == None
      && |r.calls| == |critical[evt.eventType]| + |noncritical[evt.eventType]|
                      + |critical[CatchAll]| + |noncritical[CatchAll]|
  {
    CriticalStopsAtFirstRaise(critical[evt.eventType], evt.eventType, target, evt);
    CriticalStopsAtFirstRaise(critical[CatchAll], CatchAll, target, evt);
  }

  // ---------------------------------------------------------------------------
  // The dispatcher: registered lists, the application log, the invocations
  // ---------------------------------------------------------------------------

  /** The module-level state of `Stripe::Callbacks`: the critical and
      non-critical lists of every catalogued type, plus what a dispatch
      produces outside itself (the lines given to `Rails.logger.error` and the
      sequence of callback invocations). */
  class Dispatcher {
    var critical: map<string, seq<Callback>>
    var noncritical: map<string, seq<Callback>>
    var log: seq<string>
    var calls: seq<Call>

    /** Exactly the catalogued types own lists. */
    ghost predicate Valid()
      reads this
    {
      && (forall t :: t in critical <==> t in Catalog)
      && (forall t :: t in noncritical <==> t in Catalog)
    }

    /** Declaring the catalog gives every type two empty lists. */
    constructor ()
      ensures Valid()
      ensures forall t :: t in Catalog ==> critical[t] == [] && noncritical[t] == []
      ensures log == [] && calls == []
    {
      critical := map t | t in Catalog :: [];
      noncritical := map t | t in Catalog :: [];
      log := [];
      calls := [];
    }

    /** Adds a callback at the end of one list of a catalogued type. */
    method Register(listType: string, tier: Tier, cb: Callback)
      requires Valid() && listType in Catalog
      modifies this`critical, this`noncritical
      ensures Valid()
      ensures tier == Critical ==>
        critical == old(critical)[listType := old(critical)[listType] + [cb]] && noncritical == old(noncritical)
      ensures tier == Noncritical ==>
        noncritical == old(noncritical)[listType := old(noncritical)[listType] + [cb]] && critical == old(critical)
    {
      if tier == Critical {
        critical := critical[listType := critical[listType] + [cb]];
      } else {
        noncritical := noncritical[listType := noncritical[listType] + [cb]];
      }
    }

    /** `run_critical_callbacks`: calls the critical list in order; the first
        exception escapes at once. */
    method RunCriticalCallbacks(listType: string, evt: Event, target: Target) returns (failure: Option<Failure>)
      modifies this`calls
      ensures var r := RunTier(Critical, critical, listType, target, evt);
        calls == old(calls) + r.calls && failure == r.failure
    {
      if listType !in critical {
        return Some(NoListFor(listType));
      }
      var cbs := critical[listType];
      var i := 0;
      while i < |cbs|
        invariant 0 <= i <= |cbs|
        invariant RunList(Critical, cbs[..i], listType, target, evt).failure == None
        invariant calls == old(calls) + RunList(Critical, cbs[..i], listType, target, evt).calls
      {
        RunListStep(Critical, cbs, i, listType, target, evt);
        var outcome := cbs[i].body(target, evt);
        calls := calls + [Call(cbs[i], Critical, listType, target, evt)];
        if outcome.Raised? {
          FailureIsFinal(Critical, cbs, i + 1, listType, target, evt);
          return Some(CallbackRaised(outcome.error));
        }
        i := i + 1;
      }
      assert cbs[..i] == cbs;
      failure := None;
    }

    /** `run_noncritical_callbacks`: calls the non-critical list in order; a
        callback that raises is rescued, its message and joined backtrace are
        logged, and the loop goes on. */
    method RunNoncriticalCallbacks(listType: string, evt: Event, target: Target) returns (failure: Option<Failure>)
      modifies this`calls, this`log
      ensures var r := RunTier(Noncritical, noncritical, listType, target, evt);
        calls == old(calls) + r.calls && log == old(log) + r.log && failure == r.failure
    {
      if listType !in noncritical {
        return Some(NoListFor(listType));
      }
      var cbs := noncritical[listType];
      var i := 0;
      while i < |cbs|
        invariant 0 <= i <= |cbs|
        invariant calls == old(calls) + RunList(Noncritical, cbs[..i], listType, target, evt).calls
        invariant log == old(log) + RunList(Noncritical, cbs[..i], listType, target, evt).log
      {
        RunListStep(Noncritical, cbs, i, listType, target, evt);
        var outcome := cbs[i].body(target, evt);
        calls := calls + [Call(cbs[i], Noncritical, listType, target, evt)];
        ghost var before := RunList(Noncritical, cbs[..i], listType, target, evt);
        assert RunList(Noncritical, cbs[..i + 1], listType, target, evt)
            == Run(before.calls + [Call(cbs[i], Noncritical, listType, target, evt)], before.log + LogLines(outcome), None);
        match outcome {
          case Raised(e) =>
            log := log + [e.message];
            log := log + [Join(e.backtrace, "\n")];
          case Returned =>
        }
        i := i + 1;
      }
      assert cbs[..i] == cbs;
      failure := None;
    }

    /** `_run_callbacks`: the critical list, then the non-critical one. */
    method RunTypeCallbacks(listType: string, evt: Event, target: Target) returns (failure: Option<Failure>)
      modifies this`calls, this`log
      ensures var r := RunType(critical, noncritical, listType, target, evt);
        calls == old(calls) + r.calls && log == old(log) + r.log && failure == r.failure
    {
      failure := RunCriticalCallbacks(listType, evt, target);
      if failure.Some? {
        return;
      }
      failure := RunNoncriticalCallbacks(listType, evt, target);
    }

    /** `run_callbacks`: the event's own type, then the catch-all type. The
        registered lists are only read. */
    method RunCallbacks(evt: Event, target: Target) returns (failure: Option<Failure>)
      modifies this`calls, this`log
      ensures var r := RunEvent(critical, noncritical, evt, target);
        calls == old(calls) + r.calls && log == old(log) + r.log && failure == r.failure
      ensures critical == old(critical) && noncritical == old(noncritical)
    {
      failure := RunTypeCallbacks(evt.eventType, evt, target);
      if failure.Some? {
        return;
      }
      failure := RunTypeCallbacks(CatchAll, evt, target);
    }
  }
}
