/**
 * A CSV row as both scripts see it (a dict from column name to cell text) and
 * the repeated item columns `price_id_i` / `quantity_i`.
 */
module Columns {
  import opened Strings

  type Row = map<string, string>

  const PricePrefix := "price_id_"
  const QuantityPrefix := "quantity_"

  /** `key.startswith('price_id_')`: the test both scripts use to find item price columns. */
  predicate IsPriceColumn(key: string) {
    StartsWith(key, PricePrefix)
  }

  /** `f'price_id_{i}'` */
  function PriceKey(i: nat): (k: string)
    ensures IsPriceColumn(k)
  {
    StartsWithConcat(PricePrefix, NatToString(i));
    PricePrefix + NatToString(i)
  }

  predicate IsQuantityColumn(key: string) {
    StartsWith(key, QuantityPrefix)
  }

  /** `f'quantity_{i}'` */
  function QuantityKey(i: nat): (k: string)
    ensures !IsPriceColumn(k) && IsQuantityColumn(k)
  {
    var k := QuantityPrefix + NatToString(i);
    StartsWithConcat(QuantityPrefix, NatToString(i));
    assert k[0] != PricePrefix[0];
    k
  }

  lemma PriceKeyInjective(i: nat, j: nat)
    requires PriceKey(i) == PriceKey(j)
    ensures i == j
  {
    assert PriceKey(i)[|PricePrefix|..] == NatToString(i);
    assert PriceKey(j)[|PricePrefix|..] == NatToString(j);
    NatToStringInjective(i, j);
  }

  lemma QuantityKeyInjective(i: nat, j: nat)
    requires QuantityKey(i) == QuantityKey(j)
    ensures i == j
  {
    assert QuantityKey(i)[|QuantityPrefix|..] == NatToString(i);
    assert QuantityKey(j)[|QuantityPrefix|..] == NatToString(j);
    NatToStringInjective(i, j);
  }

  /** The price columns of the first n items: price_id_1 .. price_id_n. */
  function PriceKeys(n: nat): (keys: set<string>)
    ensures forall k :: k in keys ==> IsPriceColumn(k)
    ensures |keys| == n
    decreases n, 0
  {
    if n == 0 then {}
    else
      var prev := PriceKeys(n - 1);
      PriceKeysBelow(n - 1, n);
      assert PriceKey(n) !in prev;
      prev + {PriceKey(n)}
  }

  /** The quantity columns of the first n items: quantity_1 .. quantity_n. */
  function QuantityKeys(n: nat): (keys: set<string>)
    ensures forall k :: k in keys ==> !IsPriceColumn(k) && IsQuantityColumn(k)
  {
    if n == 0 then {} else QuantityKeys(n - 1) + {QuantityKey(n)}
  }

  lemma {:induction false} PriceKeysBelow(n: nat, j: nat)
    requires n < j
    ensures PriceKey(j) !in PriceKeys(n)
    decreases n, 1
  {
    if n > 0 {
      PriceKeysBelow(n - 1, j);
      if PriceKey(j) == PriceKey(n) {
        PriceKeyInjective(j, n);
      }
    }
  }

  lemma {:induction false} PriceKeysMembers(n: nat, k: string)
    ensures k in PriceKeys(n) <==> exists i :: 1 <= i <= n && k == PriceKey(i)
  {
    if n > 0 {
      PriceKeysMembers(n - 1, k);
    }
  }

  lemma {:induction false} QuantityKeysMembers(n: nat, k: string)
    ensures k in QuantityKeys(n) <==> exists i :: 1 <= i <= n && k == QuantityKey(i)
  {
    if n > 0 {
      QuantityKeysMembers(n - 1, k);
    }
  }

  /** `sum(1 for key in row.keys() if key.startswith('price_id_'))` */
  function PriceKeyCount(row: Row): nat {
    |set k | k in row && IsPriceColumn(k)|
  }

  /** The 34 fixed columns, in the order the export header lists them. */
  const FixedColumns: seq<string> := [
    "customer_email", "customer_full_name", "customer_external_id", "business_tax_identifier",
    "business_name", "business_company_number", "business_external_id", "address_country_code",
    "address_street_line1", "address_street_line2", "address_city", "address_region", "address_postal_code",
    "address_external_id", "status", "currency_code", "started_at", "paused_at", "collection_mode", "enable_checkout",
    "purchase_order_number", "additional_information", "payment_terms_frequency", "payment_terms_interval",
    "current_period_started_at", "current_period_ends_at", "trial_period_frequency", "trial_period_interval",
    "subscription_external_id", "card_token", "discount_id", "discount_remaining_cycles",
    "subscription_custom_data_key_1", "subscription_custom_data_value_1"
  ]

  /** A column whose first two characters rule out both item prefixes. */
  lemma NotItemColumn(k: string)
    requires |k| > 1 && k[0] != 'q' && (k[0] != 'p' || k[1] != 'r')
    ensures !IsPriceColumn(k) && !IsQuantityColumn(k)
  {
    StartsWithChars(k, PricePrefix);
    StartsWithChars(k, QuantityPrefix);
  }

  lemma FixedColumnsAreNotItemColumns()
    ensures |FixedColumns| == 34
    ensures forall k :: k in FixedColumns ==> !IsPriceColumn(k) && !IsQuantityColumn(k)
  {
    forall i | 0 <= i < |FixedColumns|
      ensures !IsPriceColumn(FixedColumns[i]) && !IsQuantityColumn(FixedColumns[i])
    {
      NotItemColumn(FixedColumns[i]);
    }
  }
}
