/**
 * The header `export_to_csv` writes: the fixed columns, then one
 * `price_id_i, quantity_i` pair for each i up to the widest row.
 */
module CsvHeader {
  import opened Columns
  import opened Discounts
  import opened Extractor

  /** The largest number of `price_id_` columns in any row; 0 for no rows. */
  function MaxItems(rows: seq<Row>): nat {
    if rows == [] then 0
    else
      var rest := MaxItems(rows[..|rows| - 1]);
      var count := PriceKeyCount(rows[|rows| - 1]);
      if count > rest then count else rest
  }

  lemma {:induction false} MaxItemsIsMaximum(rows: seq<Row>)
    ensures forall i :: 0 <= i < |rows| ==> PriceKeyCount(rows[i]) <= MaxItems(rows)
    ensures rows == [] ==> MaxItems(rows) == 0
    ensures rows != [] ==> exists i :: 0 <= i < |rows| && PriceKeyCount(rows[i]) == MaxItems(rows)
  {
    if rows != [] {
      var prefix := rows[..|rows| - 1];
      MaxItemsIsMaximum(prefix);
      assert forall i :: 0 <= i < |prefix| ==> prefix[i] == rows[i];
    }
  }

  /** `price_id_1, quantity_1, ..., price_id_n, quantity_n` */
  function ItemHeaders(n: nat): seq<string> {
    if n == 0 then [] else ItemHeaders(n - 1) + [PriceKey(n), QuantityKey(n)]
  }

  lemma {:induction false} ItemHeadersShape(n: nat)
    ensures |ItemHeaders(n)| == 2 * n
    ensures forall i :: 1 <= i <= n ==>
      ItemHeaders(n)[2 * i - 2] == PriceKey(i) && ItemHeaders(n)[2 * i - 1] == QuantityKey(i)
  {
    if n > 0 {
      ItemHeadersShape(n - 1);
    }
  }

  /** The header written for a batch of rows. */
  function Header(rows: seq<Row>): seq<string> {
    FixedColumns + ItemHeaders(MaxItems(rows))
  }

  /** The fixed columns come first, then the item pairs in order, up to the widest row. */
  lemma HeaderShape(rows: seq<Row>)
    ensures |Header(rows)| == 34 + 2 * MaxItems(rows)
    ensures Header(rows)[..34] == FixedColumns
    ensures forall i :: 1 <= i <= MaxItems(rows) ==>
      Header(rows)[34 + 2 * i - 2] == PriceKey(i) && Header(rows)[34 + 2 * i - 1] == QuantityKey(i)
  {
    FixedColumnsAreNotItemColumns();
    ItemHeadersShape(MaxItems(rows));
  }

  /** The first loop of `export_to_csv`: the widest row's count of `price_id_` columns. */
  method WidestRow(data: seq<Row>) returns (maxItems: nat)
    ensures maxItems == MaxItems(data)
  {
    maxItems := 0;
    for j := 0 to |data|
      invariant maxItems == MaxItems(data[..j])
    {
      assert data[..j + 1][..j] == data[..j];
      var itemCount := PriceKeyCount(data[j]);
      maxItems := if maxItems > itemCount then maxItems else itemCount;
    }
    assert data[..|data|] == data;
  }

  /** The second loop of `export_to_csv`: appends the item pairs 1 .. maxItems. */
  method AppendItemHeaders(headers: seq<string>, maxItems: nat) returns (result: seq<string>)
    ensures result == headers + ItemHeaders(maxItems)
  {
    result := headers;
    for i := 1 to maxItems + 1
      invariant result == headers + ItemHeaders(i - 1)
    {
      ghost var before := result;
      var price, quantity := PriceKey(i), QuantityKey(i);
      result := result + [price];
      result := result + [quantity];
      assert result == before + [price, quantity];
      assert ItemHeaders(i) == ItemHeaders(i - 1) + [price, quantity];
      assert headers + ItemHeaders(i) == headers + ItemHeaders(i - 1) + [price, quantity];
    }
  }

  /** The header list of `export_to_csv`. */
  method BuildHeader(data: seq<Row>) returns (headers: seq<string>)
    ensures headers == Header(data)
  {
    var maxItems := WidestRow(data);
    headers := AppendItemHeaders(FixedColumns, maxItems);
  }

  lemma ItemHeadersContain(n: nat, i: nat)
    requires 1 <= i <= n
    ensures PriceKey(i) in ItemHeaders(n) && QuantityKey(i) in ItemHeaders(n)
  {
    ItemHeadersShape(n);
    assert ItemHeaders(n)[2 * i - 2] == PriceKey(i);
    assert ItemHeaders(n)[2 * i - 1] == QuantityKey(i);
  }

  /**
   * Every column of every extracted row is a header column, so the CSV writer
   * (which refuses keys outside its field names) accepts every row.
   */
  lemma ExtractedRowsFitHeader(subs: seq<Subscription>, now: Instant, notes: Placeholders)
    requires forall s | s in subs :: WellFormed(s)
    ensures var rows := ExtractRows(subs, now, notes);
      forall r, k :: r in rows && k in r ==> k in Header(rows)
  {
    var rows := ExtractRows(subs, now, notes);
    ExtractRowsSpec(subs, now, notes);
    MaxItemsIsMaximum(rows);
    forall r, k | r in rows && k in r
      ensures k in Header(rows)
    {
      var j :| 0 <= j < |rows| && rows[j] == r;
      var sub := Active(subs)[j];
      RowKeys(sub, now, notes);
      var m := ItemSlots(sub.items);
      assert m <= MaxItems(rows);
      if k in PriceKeys(m) {
        PriceKeysMembers(m, k);
        var i :| 1 <= i <= m && k == PriceKey(i);
        ItemHeadersContain(MaxItems(rows), i);
      } else if k in QuantityKeys(m) {
        QuantityKeysMembers(m, k);
        var i :| 1 <= i <= m && k == QuantityKey(i);
        ItemHeadersContain(MaxItems(rows), i);
      }
    }
  }
}
