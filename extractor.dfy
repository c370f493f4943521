/**
 * The subscription extractor: how `fetch_stripe_subscriptions` turns each
 * subscription, already fetched from the billing API with its customer, coupon and
 * item prices expanded, into one flat row of the migration file.
 */
module Extractor {
  import opened Options
  import opened Strings
  import opened Columns
  import opened Discounts

  /** A timestamp together with its `strftime('%Y-%m-%dT%H:%M:%SZ')` text. */
  datatype Stamp = Stamp(seconds: int, formatted: string)

  datatype Address = Address(country: string, line1: string, line2: string, city: string,
                             state: string, postalCode: string)

  /**
   * A customer; cardToken and taxId are what the two per-customer lookups
   * returned ('' when there is none or the lookup failed).
   */
  datatype Customer = Customer(id: string, email: string, name: string, address: Option<Address>,
                               cardToken: string, taxId: string)

  datatype Item = Item(priceId: Option<string>, quantity: nat)

  datatype Subscription = Subscription(
    id: string,
    status: string,
    customer: Customer,
    currency: string,
    currentPeriodStart: Option<Stamp>,
    currentPeriodEnd: Option<Stamp>,
    startDate: Option<Stamp>,
    collectionMethod: string,
    daysUntilDue: Option<int>,
    trialEnd: Option<int>,
    discount: Option<Discount>,
    plan: Plan,
    pauseCollection: bool,
    items: seq<Item>)

  /** A subscription the API can return: its plan has a positive interval count. */
  predicate WellFormed(sub: Subscription) {
    sub.plan.intervalCount >= 1
  }

  /**
   * The placeholder texts the script writes into the columns the billing API has no
   * value for. They carry no behaviour, so the row derivation takes them as a parameter.
   */
  datatype Placeholders = Placeholders(purchaseOrder: string, additionalInformation: string,
                                       notInStripe: string, pausedAt: string,
                                       customDataKey: string, customDataValue: string)

  /** The texts as the script writes them. */
  const ScriptPlaceholders := Placeholders(
    "No specific PO field in Stripe. Appropriate values may be found in custom_fields. Add logic to populate this column for manual subs, or delete.",
    "No specific additional_information field in Stripe. The description field in the Invoice API may contain appropriate values. Add logic to populate this column for manual subs, or delete.",
    "Not found in Stripe. Add your own internal value if desired, otherwise delete this column",
    "Not found in the Stripe API. Enrich from your database, otherwise delete this column if not needed.",
    "Amend the logic to add any custom_data key here. Repeat columns as necessary for more custom_data. Delete if unnecessary.",
    "Amend the logic to add any custom_data value here. Repeat columns as necessary for more custom_data. Delete if unnecessary.")

  const InfinitySign := "\U{221E}"

  /** The collection mode and the five fields that only manual collection fills in. */
  datatype Collection = Collection(mode: string, enableCheckout: string, purchaseOrderNumber: string,
                                   additionalInformation: string, paymentTermsFrequency: string,
                                   paymentTermsInterval: string)

  function CollectionFields(collectionMethod: string, daysUntilDue: Option<int>, notes: Placeholders): (c: Collection)
    ensures c.mode == "automatic" || c.mode == "manual"
    ensures c.mode == "automatic" <==> collectionMethod == "charge_automatically"
    ensures c.mode == "automatic" ==>
      c.enableCheckout == c.purchaseOrderNumber == c.additionalInformation
        == c.paymentTermsFrequency == c.paymentTermsInterval == ""
    ensures c.mode == "manual" ==>
      c.enableCheckout == "TRUE" && c.purchaseOrderNumber == notes.purchaseOrder
        && c.additionalInformation == notes.additionalInformation
    ensures c.paymentTermsInterval == "day" <==> c.mode == "manual" && daysUntilDue.Some?
    ensures c.paymentTermsInterval != "day" ==> c.paymentTermsInterval == c.paymentTermsFrequency == ""
    ensures c.paymentTermsInterval == "day" ==>
      IsInteger(c.paymentTermsFrequency) && ParseInt(c.paymentTermsFrequency) == daysUntilDue.value
  {
    if collectionMethod == "charge_automatically" then
      Collection("automatic", "", "", "", "", "")
    else
      match daysUntilDue
      case None =>
        Collection("manual", "TRUE", notes.purchaseOrder, notes.additionalInformation, "", "")
      case Some(days) =>
        IntToStringRoundTrip(days);
        Collection("manual", "TRUE", notes.purchaseOrder, notes.additionalInformation, IntToString(days), "day")
  }

  /** Trial length in days (counting the current day) and its unit, or two empty cells. */
  datatype Trial = Trial(frequency: string, interval: string)

  function TrialFields(trialEnd: Option<int>, now: Instant): (t: Trial)
    ensures t.interval == "day" <==>
      trialEnd.Some? && trialEnd.value != 0 && trialEnd.value * MicrosPerSecond >= now.micros
    ensures t.interval != "day" ==> t == Trial("", "")
    ensures t.interval == "day" ==>
      && IsDigits(t.frequency)
      && var days := ParseNat(t.frequency) - 1;
      && days >= 0
      && days * MicrosPerDay <= trialEnd.value * MicrosPerSecond - now.micros < (days + 1) * MicrosPerDay
  {
    match trialEnd
    case None => Trial("", "")
    case Some(seconds) =>
      if seconds == 0 then Trial("", "")
      else
        var left := ElapsedDays(now, Instant(seconds * MicrosPerSecond, 0, 0));
        if left >= 0 then
          ParseNatToString(left + 1);
          Trial(NatToString(left + 1), "day")
        else Trial("", "")
  }

  /** Formatted timestamp, or '' when the API gave none (or gave 0, which Python treats as false). */
  function StampCell(stamp: Option<Stamp>): string {
    match stamp
    case Some(s) => if s.seconds != 0 then s.formatted else ""
    case None => ""
  }

  /** The cell shows the formatted timestamp when the API gave a non-zero one, and is empty otherwise. */
  predicate StampShown(stamp: Option<Stamp>, cell: string) {
    if stamp.Some? && stamp.value.seconds != 0 then cell == stamp.value.formatted else cell == ""
  }

  /** The remaining-cycles cell: '', the infinity sign, or the count as `str` writes it. */
  function CyclesCell(c: Cycles): (s: string)
    ensures s == "" <==> c.NoCycles?
    ensures s == InfinitySign <==> c.Unlimited?
    ensures c.Remaining? ==> IsDigits(s) && ParseNat(s) == c.count
  {
    match c
    case NoCycles => ""
    case Unlimited => InfinitySign
    case Remaining(n) =>
      ParseNatToString(n);
      assert !('0' <= InfinitySign[0] <= '9');
      NatToString(n)
  }

  /**
   * The dictionary literal of the extractor, before the pause override and the item
   * columns. A map has no order: the cells the row lemmas read are listed last.
   */
  function FixedCells(sub: Subscription, now: Instant, notes: Placeholders): Row
    requires WellFormed(sub)
  {
    var customer := sub.customer;
    var address := customer.address;
    var collection := CollectionFields(sub.collectionMethod, sub.daysUntilDue, notes);
    var trial := TrialFields(sub.trialEnd, now);
    var discount := RemainingDiscountCycles(sub.discount, sub.plan, now);
    map[
      "customer_email" := customer.email,
      "customer_full_name" := customer.name,
      "customer_external_id" := customer.id,
      "business_tax_identifier" := customer.taxId,
      "business_name" := customer.name,
      "business_company_number" := notes.notInStripe,
      "business_external_id" := notes.notInStripe,
      "address_country_code" := if address.Some? then address.value.country else "",
      "address_street_line1" := if address.Some? then address.value.line1 else "",
      "address_street_line2" := if address.Some? then address.value.line2 else "",
      "address_city" := if address.Some? then address.value.city else "",
      "address_region" := if address.Some? then address.value.state else "",
      "address_postal_code" := if address.Some? then address.value.postalCode else "",
      "address_external_id" := notes.notInStripe,
      "currency_code" := Upper(sub.currency),
      "paused_at" := notes.pausedAt,
      "subscription_external_id" := sub.id,
      "card_token" := customer.cardToken,
      "subscription_custom_data_key_1" := notes.customDataKey,
      "subscription_custom_data_value_1" := notes.customDataValue,
      "started_at" := StampCell(sub.startDate),
      "current_period_started_at" := StampCell(sub.currentPeriodStart),
      "current_period_ends_at" := StampCell(sub.currentPeriodEnd),
      "collection_mode" := collection.mode,
      "enable_checkout" := collection.enableCheckout,
      "purchase_order_number" := collection.purchaseOrderNumber,
      "additional_information" := collection.additionalInformation,
      "payment_terms_frequency" := collection.paymentTermsFrequency,
      "payment_terms_interval" := collection.paymentTermsInterval,
      "trial_period_frequency" := trial.frequency,
      "trial_period_interval" := trial.interval,
      "discount_id" := discount.discountId,
      "discount_remaining_cycles" := CyclesCell(discount.cycles),
      "status" := sub.status
    ]
  }

  function PriceCell(item: Item): string {
    if item.priceId.Some? then item.priceId.value else ""
  }

  /** The item columns written for the first |items| items, in item order. */
  function ItemCells(items: seq<Item>): Row {
    if items == [] then map[]
    else
      var n := |items|;
      ItemCells(items[..n - 1])[PriceKey(n) := PriceCell(items[n - 1])][QuantityKey(n) := NatToString(items[n - 1].quantity)]
  }

  /** Item columns of a row: one pair per item, or one empty pair when there are none. */
  function ItemColumns(items: seq<Item>): Row {
    if items == [] then map[PriceKey(1) := "", QuantityKey(1) := ""] else ItemCells(items)
  }

  /** The dictionary after the pause override and the item loop. */
  function Assemble(fixed: Row, paused: bool, items: seq<Item>): Row {
    var withStatus := if paused then fixed["status" := "paused"] else fixed;
    withStatus + ItemColumns(items)
  }

  /** The row the extractor appends for one subscription. */
  function BuildRow(sub: Subscription, now: Instant, notes: Placeholders): Row
    requires WellFormed(sub)
  {
    Assemble(FixedCells(sub, now, notes), sub.pauseCollection, sub.items)
  }

  /** The subscriptions the extractor keeps, in input order. */
  function Active(subs: seq<Subscription>): seq<Subscription> {
    if subs == [] then []
    else
      var last := subs[|subs| - 1];
      Active(subs[..|subs| - 1]) + (if last.status == "past_due" then [] else [last])
  }

  /** The rows `fetch_stripe_subscriptions` returns: one per kept subscription, in order. */
  function ExtractRows(subs: seq<Subscription>, now: Instant, notes: Placeholders): seq<Row>
    requires forall s | s in subs :: WellFormed(s)
  {
    ActiveMembers(subs);
    var kept := Active(subs);
    seq(|kept|, i requires 0 <= i < |kept| => BuildRow(kept[i], now, notes))
  }

  lemma {:induction false} ActiveMembers(subs: seq<Subscription>)
    ensures forall s :: s in Active(subs) <==> s in subs && s.status != "past_due"
  {
    if subs != [] {
      ActiveMembers(subs[..|subs| - 1]);
      assert subs == subs[..|subs| - 1] + [subs[|subs| - 1]];
    }
  }

  lemma {:induction false} ActiveAppend(a: seq<Subscription>, b: seq<Subscription>)
    ensures Active(a + b) == Active(a) + Active(b)
  {
    if b != [] {
      ActiveAppend(a, b[..|b| - 1]);
      assert (a + b)[..|a + b| - 1] == a + b[..|b| - 1];
    } else {
      assert a + b == a;
    }
  }

  /** The dictionary literal has exactly the fixed columns. */
  lemma FixedCellsKeys(sub: Subscription, now: Instant, notes: Placeholders)
    requires WellFormed(sub)
    ensures FixedCells(sub, now, notes).Keys == set k | k in FixedColumns
  {
  }

  lemma {:induction false} ItemCellsKeys(items: seq<Item>)
    ensures ItemCells(items).Keys == PriceKeys(|items|) + QuantityKeys(|items|)
  {
    if items != [] {
      ItemCellsKeys(items[..|items| - 1]);
    }
  }

  lemma {:induction false} ItemCellsValues(items: seq<Item>, i: nat)
    requires 1 <= i <= |items|
    ensures PriceKey(i) in ItemCells(items) && QuantityKey(i) in ItemCells(items)
    ensures ItemCells(items)[PriceKey(i)] == PriceCell(items[i - 1])
    ensures ItemCells(items)[QuantityKey(i)] == NatToString(items[i - 1].quantity)
  {
    var n := |items|;
    if i < n {
      var prefix := items[..n - 1];
      ItemCellsValues(prefix, i);
      assert prefix[i - 1] == items[i - 1];
      if PriceKey(i) == PriceKey(n) { PriceKeyInjective(i, n); }
      if QuantityKey(i) == QuantityKey(n) { QuantityKeyInjective(i, n); }
    }
  }

  /** Number of item column pairs in a row: one per item, and one even without items. */
  function ItemSlots(items: seq<Item>): nat {
    if items == [] then 1 else |items|
  }

  lemma ItemColumnsKeys(items: seq<Item>)
    ensures ItemColumns(items).Keys == PriceKeys(ItemSlots(items)) + QuantityKeys(ItemSlots(items))
    ensures forall k :: k in ItemColumns(items) ==> IsPriceColumn(k) || IsQuantityColumn(k)
  {
    if items != [] {
      ItemCellsKeys(items);
    }
  }

  /** A fixed part whose columns are none of the item columns, as the dictionary literal is. */
  predicate FixedPart(fixed: Row) {
    && "status" in fixed
    && (forall k {:trigger IsPriceColumn(k)} :: IsPriceColumn(k) ==> k !in fixed)
    && (forall k {:trigger IsQuantityColumn(k)} :: IsQuantityColumn(k) ==> k !in fixed)
  }

  lemma FixedCellsIsFixedPart(sub: Subscription, now: Instant, notes: Placeholders)
    requires WellFormed(sub)
    ensures FixedPart(FixedCells(sub, now, notes))
  {
    FixedCellsKeys(sub, now, notes);
    FixedColumnsAreNotItemColumns();
  }

  /** The price columns of a row made of a fixed part and n item pairs are price_id_1 .. price_id_n. */
  lemma PriceColumnsOf(row: Row, fixed: Row, n: nat)
    requires FixedPart(fixed)
    requires row.Keys == fixed.Keys + PriceKeys(n) + QuantityKeys(n)
    ensures (set k | k in row && IsPriceColumn(k)) == PriceKeys(n)
  {
    forall k | k in row && IsPriceColumn(k)
      ensures k in PriceKeys(n)
    {
      assert k !in fixed;
      assert k !in QuantityKeys(n);
    }
  }

  lemma AssembleKeys(fixed: Row, paused: bool, items: seq<Item>)
    requires "status" in fixed
    ensures Assemble(fixed, paused, items).Keys
      == fixed.Keys + PriceKeys(ItemSlots(items)) + QuantityKeys(ItemSlots(items))
  {
    var withStatus := if paused then fixed["status" := "paused"] else fixed;
    assert withStatus.Keys == fixed.Keys;
    ItemColumnsKeys(items);
  }

  /** A row counts one price column per item slot. */
  lemma AssemblePriceCount(fixed: Row, paused: bool, items: seq<Item>)
    requires FixedPart(fixed)
    ensures PriceKeyCount(Assemble(fixed, paused, items)) == ItemSlots(items)
  {
    AssembleKeys(fixed, paused, items);
    PriceColumnsOf(Assemble(fixed, paused, items), fixed, ItemSlots(items));
  }

  /** No column of a fixed part is an item column. */
  lemma NotItemKey(fixed: Row, items: seq<Item>, k: string)
    requires FixedPart(fixed) && k in fixed
    ensures k !in ItemColumns(items)
  {
    ItemColumnsKeys(items);
  }

  /** The pause override decides the status cell; the item columns never touch it. */
  lemma AssembleStatus(fixed: Row, paused: bool, items: seq<Item>)
    requires FixedPart(fixed)
    ensures "status" in Assemble(fixed, paused, items)
    ensures Assemble(fixed, paused, items)["status"] == if paused then "paused" else fixed["status"]
  {
    NotItemKey(fixed, items, "status");
  }

  /** Every other cell of the literal reaches the row unchanged. */
  lemma AssembleKeepsFixed(fixed: Row, paused: bool, items: seq<Item>, k: string)
    requires FixedPart(fixed) && k in fixed && k != "status"
    ensures k in Assemble(fixed, paused, items) && Assemble(fixed, paused, items)[k] == fixed[k]
  {
    NotItemKey(fixed, items, k);
  }

  /** The item cells: one pair per item in item order, or one empty pair without items. */
  lemma AssembleItems(fixed: Row, paused: bool, items: seq<Item>)
    ensures var row := Assemble(fixed, paused, items);
      && (items == [] ==> PriceKey(1) in row && QuantityKey(1) in row && row[PriceKey(1)] == "" && row[QuantityKey(1)] == "")
      && (forall i :: 1 <= i <= |items| ==>
            && PriceKey(i) in row && row[PriceKey(i)] == PriceCell(items[i - 1])
            && QuantityKey(i) in row && row[QuantityKey(i)] == NatToString(items[i - 1].quantity))
  {
    var row := Assemble(fixed, paused, items);
    forall i | 1 <= i <= |items|
      ensures PriceKey(i) in row && row[PriceKey(i)] == PriceCell(items[i - 1])
      ensures QuantityKey(i) in row && row[QuantityKey(i)] == NatToString(items[i - 1].quantity)
    {
      ItemCellsValues(items, i);
    }
  }

  /** Every row has the fixed columns and exactly ItemSlots pairs of item columns. */
  lemma RowKeys(sub: Subscription, now: Instant, notes: Placeholders)
    requires WellFormed(sub)
    ensures BuildRow(sub, now, notes).Keys
      == (set k | k in FixedColumns) + PriceKeys(ItemSlots(sub.items)) + QuantityKeys(ItemSlots(sub.items))
    ensures PriceKeyCount(BuildRow(sub, now, notes)) == ItemSlots(sub.items)
  {
    FixedCellsKeys(sub, now, notes);
    FixedCellsIsFixedPart(sub, now, notes);
    AssembleKeys(FixedCells(sub, now, notes), sub.pauseCollection, sub.items);
    AssemblePriceCount(FixedCells(sub, now, notes), sub.pauseCollection, sub.items);
  }

  /** A row's status is 'paused' whenever collection is paused, and the API status otherwise. */
  lemma RowStatus(sub: Subscription, now: Instant, notes: Placeholders)
    requires WellFormed(sub)
    ensures "status" in BuildRow(sub, now, notes)
    ensures BuildRow(sub, now, notes)["status"] == if sub.pauseCollection then "paused" else sub.status
  {
    FixedCellsIsFixedPart(sub, now, notes);
    AssembleStatus(FixedCells(sub, now, notes), sub.pauseCollection, sub.items);
  }

  /** The cells of the literal other than status are the row's cells. */
  lemma RowFixedCell(sub: Subscription, now: Instant, notes: Placeholders, k: string)
    requires WellFormed(sub) && k in FixedCells(sub, now, notes) && k != "status"
    ensures k in BuildRow(sub, now, notes) && BuildRow(sub, now, notes)[k] == FixedCells(sub, now, notes)[k]
  {
    FixedCellsIsFixedPart(sub, now, notes);
    AssembleKeepsFixed(FixedCells(sub, now, notes), sub.pauseCollection, sub.items, k);
  }

  /** A row's item columns: price_id_i / quantity_i of item i, or one empty pair without items. */
  lemma RowItems(sub: Subscription, now: Instant, notes: Placeholders)
    requires WellFormed(sub)
    ensures var row := BuildRow(sub, now, notes);
      && (sub.items == [] ==> PriceKey(1) in row && QuantityKey(1) in row && row[PriceKey(1)] == "" && row[QuantityKey(1)] == "")
      && (forall i :: 1 <= i <= |sub.items| ==>
            && PriceKey(i) in row && row[PriceKey(i)] == PriceCell(sub.items[i - 1])
            && QuantityKey(i) in row && row[QuantityKey(i)] == NatToString(sub.items[i - 1].quantity))
  {
    AssembleItems(FixedCells(sub, now, notes), sub.pauseCollection, sub.items);
  }

  /** The literal's collection-mode cells hold the fields the collection computation gives. */
  lemma FixedCollectionCells(sub: Subscription, now: Instant, notes: Placeholders)
    requires WellFormed(sub)
    ensures var f := FixedCells(sub, now, notes);
      var c := CollectionFields(sub.collectionMethod, sub.daysUntilDue, notes);
      && "collection_mode" in f && f["collection_mode"] == c.mode
      && "enable_checkout" in f && f["enable_checkout"] == c.enableCheckout
      && "purchase_order_number" in f && f["purchase_order_number"] == c.purchaseOrderNumber
      && "additional_information" in f && f["additional_information"] == c.additionalInformation
      && "payment_terms_frequency" in f && f["payment_terms_frequency"] == c.paymentTermsFrequency
      && "payment_terms_interval" in f && f["payment_terms_interval"] == c.paymentTermsInterval
  {
  }

  /** The literal's trial and discount cells hold what the trial and discount computations give. */
  lemma FixedTrialDiscountCells(sub: Subscription, now: Instant, notes: Placeholders)
    requires WellFormed(sub)
    ensures var f := FixedCells(sub, now, notes);
      var t := TrialFields(sub.trialEnd, now);
      var d := RemainingDiscountCycles(sub.discount, sub.plan, now);
      && "trial_period_frequency" in f && f["trial_period_frequency"] == t.frequency
      && "trial_period_interval" in f && f["trial_period_interval"] == t.interval
      && "discount_id" in f && f["discount_id"] == d.discountId
      && "discount_remaining_cycles" in f && f["discount_remaining_cycles"] == CyclesCell(d.cycles)
  {
  }

  /** The literal's three timestamp cells. */
  lemma FixedStampCells(sub: Subscription, now: Instant, notes: Placeholders)
    requires WellFormed(sub)
    ensures var f := FixedCells(sub, now, notes);
      && "started_at" in f && StampShown(sub.startDate, f["started_at"])
      && "current_period_started_at" in f && StampShown(sub.currentPeriodStart, f["current_period_started_at"])
      && "current_period_ends_at" in f && StampShown(sub.currentPeriodEnd, f["current_period_ends_at"])
  {
  }

  /** The start and period cells of a row show the API's timestamps, or '' when there is none or it is 0. */
  lemma RowStamps(sub: Subscription, now: Instant, notes: Placeholders)
    requires WellFormed(sub)
    ensures var row := BuildRow(sub, now, notes);
      && "started_at" in row && StampShown(sub.startDate, row["started_at"])
      && "current_period_started_at" in row && StampShown(sub.currentPeriodStart, row["current_period_started_at"])
      && "current_period_ends_at" in row && StampShown(sub.currentPeriodEnd, row["current_period_ends_at"])
  {
    FixedStampCells(sub, now, notes);
    RowFixedCell(sub, now, notes, "started_at");
    RowFixedCell(sub, now, notes, "current_period_started_at");
    RowFixedCell(sub, now, notes, "current_period_ends_at");
  }

  /** Exactly one of the two collection-mode field sets is filled in a row. */
  lemma RowCollectionMode(sub: Subscription, now: Instant, notes: Placeholders)
    requires WellFormed(sub)
    ensures var row := BuildRow(sub, now, notes);
      && "collection_mode" in row && "enable_checkout" in row && "purchase_order_number" in row
      && "additional_information" in row && "payment_terms_frequency" in row && "payment_terms_interval" in row
      && (row["collection_mode"] == "automatic" <==> sub.collectionMethod == "charge_automatically")
      && (row["collection_mode"] == "automatic" ==>
            row["enable_checkout"] == row["purchase_order_number"] == row["additional_information"]
              == row["payment_terms_frequency"] == row["payment_terms_interval"] == "")
      && (row["collection_mode"] != "automatic" ==> row["collection_mode"] == "manual" && row["enable_checkout"] == "TRUE")
      && (row["payment_terms_interval"] == "day" <==> row["collection_mode"] == "manual" && sub.daysUntilDue.Some?)
  {
    FixedCollectionCells(sub, now, notes);
    RowFixedCell(sub, now, notes, "collection_mode");
    RowFixedCell(sub, now, notes, "enable_checkout");
    RowFixedCell(sub, now, notes, "purchase_order_number");
    RowFixedCell(sub, now, notes, "additional_information");
    RowFixedCell(sub, now, notes, "payment_terms_frequency");
    RowFixedCell(sub, now, notes, "payment_terms_interval");
  }

  /**
   * With non-empty placeholder texts, the manual-only cells are filled exactly when the
   * subscription is not charged automatically: exactly one of the two field sets is in use.
   */
  lemma ManualCellsFilled(sub: Subscription, now: Instant, notes: Placeholders)
    requires WellFormed(sub)
    requires notes.purchaseOrder != "" && notes.additionalInformation != ""
    ensures var row := BuildRow(sub, now, notes);
      && "enable_checkout" in row && "purchase_order_number" in row && "additional_information" in row
      && (row["enable_checkout"] != "" <==> sub.collectionMethod != "charge_automatically")
      && (row["purchase_order_number"] != "" <==> sub.collectionMethod != "charge_automatically")
      && (row["additional_information"] != "" <==> sub.collectionMethod != "charge_automatically")
  {
    RowCollectionMode(sub, now, notes);
    FixedCollectionCells(sub, now, notes);
    RowFixedCell(sub, now, notes, "purchase_order_number");
    RowFixedCell(sub, now, notes, "additional_information");
  }

  /** The script's own purchase-order and additional-information texts are not empty. */
  lemma ScriptPlaceholdersFilled()
    ensures ScriptPlaceholders.purchaseOrder != "" && ScriptPlaceholders.additionalInformation != ""
  {
  }

  /** With the script's texts, a row fills the manual-only cells exactly for manual collection. */
  lemma ScriptRowManualCells(sub: Subscription, now: Instant)
    requires WellFormed(sub)
    ensures var row := BuildRow(sub, now, ScriptPlaceholders);
      && "enable_checkout" in row && "purchase_order_number" in row && "additional_information" in row
      && (row["enable_checkout"] != "" <==> sub.collectionMethod != "charge_automatically")
      && (row["purchase_order_number"] != "" <==> sub.collectionMethod != "charge_automatically")
      && (row["additional_information"] != "" <==> sub.collectionMethod != "charge_automatically")
  {
    ScriptPlaceholdersFilled();
    ManualCellsFilled(sub, now, ScriptPlaceholders);
  }

  /**
   * The remapper's discount column is always present, empty exactly when there is no discount id;
   * the remaining-cycles cell is empty without a discount, the infinity sign exactly for a
   * forever coupon, and otherwise the count.
   */
  lemma RowDiscount(sub: Subscription, now: Instant, notes: Placeholders)
    requires WellFormed(sub)
    ensures var row := BuildRow(sub, now, notes);
      && "discount_id" in row && "discount_remaining_cycles" in row
      && row["discount_id"] == (if sub.discount.Some? then sub.discount.value.id else "")
      && row["discount_remaining_cycles"] == CyclesCell(RemainingDiscountCycles(sub.discount, sub.plan, now).cycles)
      && (row["discount_remaining_cycles"] == "" <==> sub.discount.None?)
      && (row["discount_remaining_cycles"] == InfinitySign <==>
            sub.discount.Some? && sub.discount.value.coupon.duration == "forever")
  {
    FixedTrialDiscountCells(sub, now, notes);
    RowFixedCell(sub, now, notes, "discount_id");
    RowFixedCell(sub, now, notes, "discount_remaining_cycles");
  }

  lemma UnionUpdate(row: Row, cells: Row, k: string, v: string)
    ensures (row + cells)[k := v] == row + cells[k := v]
  {
  }

  /** Writing item i's pair into a row that holds the first i - 1 items' cells. */
  lemma ItemCellsStep(row: Row, items: seq<Item>, i: nat)
    requires 1 <= i <= |items|
    ensures row + ItemCells(items[..i])
      == (row + ItemCells(items[..i - 1]))[PriceKey(i) := PriceCell(items[i - 1])][QuantityKey(i) := NatToString(items[i - 1].quantity)]
  {
    assert items[..i][..i - 1] == items[..i - 1];
    var cells := ItemCells(items[..i - 1]);
    UnionUpdate(row, cells, PriceKey(i), PriceCell(items[i - 1]));
    UnionUpdate(row, cells[PriceKey(i) := PriceCell(items[i - 1])], QuantityKey(i), NatToString(items[i - 1].quantity));
  }

  /** Without items the row gets one empty pair. */
  lemma NoItemCells(row: Row)
    ensures row + ItemColumns([]) == row[PriceKey(1) := ""][QuantityKey(1) := ""]
  {
    ghost var none: Row := map[];
    UnionUpdate(row, none, PriceKey(1), "");
    UnionUpdate(row, none[PriceKey(1) := ""], QuantityKey(1), "");
  }

  /** The trial cells of a row are filled exactly when the trial ends now or later. */
  lemma RowTrial(sub: Subscription, now: Instant, notes: Placeholders)
    requires WellFormed(sub)
    ensures var row := BuildRow(sub, now, notes);
      && "trial_period_frequency" in row && "trial_period_interval" in row
      && (row["trial_period_interval"] == "day" <==>
            sub.trialEnd.Some? && sub.trialEnd.value != 0 && sub.trialEnd.value * MicrosPerSecond >= now.micros)
      && (row["trial_period_interval"] != "day" ==> row["trial_period_frequency"] == row["trial_period_interval"] == "")
      && (row["trial_period_interval"] == "day" ==>
            IsDigits(row["trial_period_frequency"]) && ParseNat(row["trial_period_frequency"]) >= 1)
  {
    FixedTrialDiscountCells(sub, now, notes);
    RowFixedCell(sub, now, notes, "trial_period_frequency");
    RowFixedCell(sub, now, notes, "trial_period_interval");
  }

  /** The item loop of the extractor: writes price_id_i / quantity_i for i = 1, 2, ... into the row. */
  method AddItemColumns(row: Row, items: seq<Item>) returns (result: Row)
    ensures result == row + ItemColumns(items)
  {
    result := row;
    if items != [] {
      for i := 1 to |items| + 1
        invariant result == row + ItemCells(items[..i - 1])
      {
        var item := items[i - 1];
        ItemCellsStep(row, items, i);
        result := result[PriceKey(i) := if item.priceId.Some? then item.priceId.value else ""];
        result := result[QuantityKey(i) := NatToString(item.quantity)];
      }
      assert items[..|items|] == items;
    } else {
      NoItemCells(row);
      result := result[PriceKey(1) := ""];
      result := result[QuantityKey(1) := ""];
    }
  }

  /** The body of the extractor loop for one subscription that is not past due. */
  method CollectRow(sub: Subscription, now: Instant, notes: Placeholders) returns (row: Row)
    requires WellFormed(sub)
    ensures row == BuildRow(sub, now, notes)
  {
    row := FixedCells(sub, now, notes);
    if sub.pauseCollection {
      row := row["status" := "paused"];
    }
    row := AddItemColumns(row, sub.items);
  }

  /** `fetch_stripe_subscriptions` over the subscriptions the API pages through. */
  method FetchSubscriptions(subs: seq<Subscription>, now: Instant, notes: Placeholders) returns (rows: seq<Row>)
    requires forall s | s in subs :: WellFormed(s)
    ensures rows == ExtractRows(subs, now, notes)
  {
    rows := [];
    for i := 0 to |subs|
      invariant rows == ExtractRows(subs[..i], now, notes)
    {
      var sub := subs[i];
      assert subs[..i + 1][..i] == subs[..i];
      if sub.status == "past_due" {
        continue;
      }
      var row := CollectRow(sub, now, notes);
      rows := rows + [row];
    }
    assert subs[..|subs|] == subs;
  }

  /** One row per subscription that is not past due, in the order the API returned them. */
  lemma ExtractRowsSpec(subs: seq<Subscription>, now: Instant, notes: Placeholders)
    requires forall s | s in subs :: WellFormed(s)
    ensures forall s :: s in Active(subs) <==> s in subs && s.status != "past_due"
    ensures |ExtractRows(subs, now, notes)| == |Active(subs)|
    ensures forall i :: 0 <= i < |Active(subs)| ==> ExtractRows(subs, now, notes)[i] == BuildRow(Active(subs)[i], now, notes)
  {
    ActiveMembers(subs);
  }
}
