/**
 * The identifier remapper: builds old-id -> new-id tables from the reference
 * rows and rewrites the price and discount cells of the extracted rows in place.
 */
module Remapper {
  import opened Strings
  import opened Columns

  const DiscountColumn := "discount_id"

  /** Every reference row has the two columns a table is read from (otherwise `row[key]` raises). */
  predicate HasColumns(table: seq<Row>, keyColumn: string, valueColumn: string) {
    forall r | r in table :: keyColumn in r && valueColumn in r
  }

  /** The dictionary `load_mapping` fills, one reference row after the other. */
  function Mapping(table: seq<Row>, keyColumn: string, valueColumn: string): map<string, string>
    requires HasColumns(table, keyColumn, valueColumn)
  {
    if table == [] then map[]
    else
      var last := table[|table| - 1];
      Mapping(table[..|table| - 1], keyColumn, valueColumn)[last[keyColumn] := last[valueColumn]]
  }

  /** The keys are exactly the key-column values of the reference rows, empty ones included. */
  lemma {:induction false} MappingKeys(table: seq<Row>, keyColumn: string, valueColumn: string)
    requires HasColumns(table, keyColumn, valueColumn)
    ensures Mapping(table, keyColumn, valueColumn).Keys == set r | r in table :: r[keyColumn]
  {
    if table != [] {
      var prefix := table[..|table| - 1];
      MappingKeys(prefix, keyColumn, valueColumn);
      assert table == prefix + [table[|table| - 1]];
    }
  }

  /** For a key that occurs in several rows, the last of them decides the value. */
  lemma {:induction false} MappingLastWins(table: seq<Row>, keyColumn: string, valueColumn: string, i: nat)
    requires HasColumns(table, keyColumn, valueColumn)
    requires i < |table|
    requires forall j :: i < j < |table| ==> table[j][keyColumn] != table[i][keyColumn]
    ensures table[i][keyColumn] in Mapping(table, keyColumn, valueColumn)
    ensures Mapping(table, keyColumn, valueColumn)[table[i][keyColumn]] == table[i][valueColumn]
  {
    if i < |table| - 1 {
      var prefix := table[..|table| - 1];
      MappingLastWins(prefix, keyColumn, valueColumn, i);
    }
  }

  /** Reference rows that pair an empty old id only with an empty new id leave empty cells empty. */
  lemma {:induction false} MappingKeepsBlank(table: seq<Row>, keyColumn: string, valueColumn: string)
    requires HasColumns(table, keyColumn, valueColumn)
    requires forall r | r in table :: r[keyColumn] == "" ==> r[valueColumn] == ""
    ensures "" in Mapping(table, keyColumn, valueColumn) ==> Mapping(table, keyColumn, valueColumn)[""] == ""
  {
    if table != [] {
      MappingKeepsBlank(table[..|table| - 1], keyColumn, valueColumn);
    }
  }

  /** `load_mapping` over the rows of the reference file. */
  method LoadMapping(table: seq<Row>, keyColumn: string, valueColumn: string) returns (mapping: map<string, string>)
    requires HasColumns(table, keyColumn, valueColumn)
    ensures mapping == Mapping(table, keyColumn, valueColumn)
  {
    mapping := map[];
    for i := 0 to |table|
      invariant mapping == Mapping(table[..i], keyColumn, valueColumn)
    {
      var row := table[i];
      assert table[..i + 1][..i] == table[..i];
      mapping := mapping[row[keyColumn] := row[valueColumn]];
    }
    assert table[..|table|] == table;
  }

  /** One row after `map_prices`: each price cell is looked up once, unknown values pass through. */
  function PricesMapped(row: Row, mapping: map<string, string>): Row {
    map k | k in row :: if IsPriceColumn(k) && row[k] in mapping then mapping[row[k]] else row[k]
  }

  /** One row after `map_discounts`. */
  function DiscountMapped(row: Row, mapping: map<string, string>): Row
    requires DiscountColumn in row
  {
    if row[DiscountColumn] in mapping then row[DiscountColumn := mapping[row[DiscountColumn]]] else row
  }

  /** `map_prices` keeps the columns and every non-price cell, and maps each price cell exactly once. */
  lemma PricesMappedCells(row: Row, mapping: map<string, string>)
    ensures PricesMapped(row, mapping).Keys == row.Keys
    ensures PriceKeyCount(PricesMapped(row, mapping)) == PriceKeyCount(row)
    ensures forall k :: k in row && !IsPriceColumn(k) ==> PricesMapped(row, mapping)[k] == row[k]
    ensures forall k :: k in row && IsPriceColumn(k) && row[k] !in mapping ==> PricesMapped(row, mapping)[k] == row[k]
    ensures forall k :: k in row && IsPriceColumn(k) && row[k] in mapping ==> PricesMapped(row, mapping)[k] == mapping[row[k]]
  {
  }

  /** With old and new ids kept apart, mapping a second time changes nothing. */
  lemma PricesMappedIdempotent(row: Row, mapping: map<string, string>)
    requires mapping.Keys !! mapping.Values
    ensures PricesMapped(PricesMapped(row, mapping), mapping) == PricesMapped(row, mapping)
  {
    var once := PricesMapped(row, mapping);
    forall k | k in once && IsPriceColumn(k) ensures once[k] !in mapping {
      if row[k] in mapping {
        assert once[k] in mapping.Values;
      }
    }
  }

  /** A new id that is itself an old id is not looked up again: 'a' maps to 'b', not on to 'c'. */
  lemma PricesNotChained()
    ensures PricesMapped(map[PriceKey(1) := "a"], map["a" := "b", "b" := "c"])[PriceKey(1)] == "b"
  {
  }

  /** An empty table leaves every row as it was. */
  lemma EmptyMappingChangesNothing(row: Row)
    ensures PricesMapped(row, map[]) == row
    ensures DiscountColumn in row ==> DiscountMapped(row, map[]) == row
  {
  }

  /** The inner loop of `map_prices`: visits the keys of one row and rewrites its price cells. */
  method MapRowPrices(row: Row, mapping: map<string, string>) returns (result: Row)
    ensures result == PricesMapped(row, mapping)
  {
    ghost var mapped := PricesMapped(row, mapping);
    result := row;
    var todo := row.Keys;
    while todo != {}
      invariant todo <= row.Keys == result.Keys
      invariant forall k :: k in todo ==> result[k] == row[k]
      invariant forall k :: k in row && k !in todo ==> result[k] == mapped[k]
      decreases |todo|
    {
      var key :| key in todo;
      if IsPriceColumn(key) && result[key] in mapping {
        result := result[key := mapping[result[key]]];
      }
      todo := todo - {key};
    }
  }

  /** `map_prices(rows, price_mapping)`: rewrites the price cells of every row, in place. */
  method MapPrices(rows: array<Row>, mapping: map<string, string>)
    modifies rows
    ensures forall i :: 0 <= i < rows.Length ==> rows[i] == PricesMapped(old(rows[i]), mapping)
  {
    for n := 0 to rows.Length
      invariant forall i :: 0 <= i < n ==> rows[i] == PricesMapped(old(rows[i]), mapping)
      invariant forall i :: n <= i < rows.Length ==> rows[i] == old(rows[i])
    {
      rows[n] := MapRowPrices(rows[n], mapping);
    }
  }

  /** `map_discounts(rows, discount_mapping)`: rewrites the discount cell of every row, in place. */
  method MapDiscounts(rows: array<Row>, mapping: map<string, string>)
    requires forall i :: 0 <= i < rows.Length ==> DiscountColumn in rows[i]
    modifies rows
    ensures forall i :: 0 <= i < rows.Length ==> DiscountColumn in old(rows[i]) && rows[i] == DiscountMapped(old(rows[i]), mapping)
  {
    for n := 0 to rows.Length
      invariant forall i :: 0 <= i < n ==> DiscountColumn in old(rows[i]) && rows[i] == DiscountMapped(old(rows[i]), mapping)
      invariant forall i :: n <= i < rows.Length ==> rows[i] == old(rows[i])
    {
      if rows[n][DiscountColumn] in mapping {
        rows[n] := rows[n][DiscountColumn := mapping[rows[n][DiscountColumn]]];
      }
    }
  }

  const OldPriceColumn := "stripe_price_id"
  const NewPriceColumn := "paddle_price_id"
  const OldDiscountColumn := "stripe_discount_id"
  const NewDiscountColumn := "paddle_discount_id"

  /** What the remapper can be run on: the reference columns and, for discounts, the discount column. */
  predicate CanRemap(rows: seq<Row>, reference: seq<Row>, mapPrices: bool, mapDiscounts: bool) {
    && (mapPrices ==> HasColumns(reference, OldPriceColumn, NewPriceColumn))
    && (mapDiscounts ==> HasColumns(reference, OldDiscountColumn, NewDiscountColumn))
    && (mapDiscounts ==> forall r | r in rows :: DiscountColumn in r)
  }

  /** The rows `main` writes, given the two answers to its prompts. */
  function Remapped(rows: seq<Row>, reference: seq<Row>, mapPrices: bool, mapDiscounts: bool): seq<Row>
    requires CanRemap(rows, reference, mapPrices, mapDiscounts)
  {
    var priced :=
      if mapPrices then
        var prices := Mapping(reference, OldPriceColumn, NewPriceColumn);
        seq(|rows|, i requires 0 <= i < |rows| => PricesMapped(rows[i], prices))
      else rows;
    if mapDiscounts then
      var discounts := Mapping(reference, OldDiscountColumn, NewDiscountColumn);
      seq(|priced|, i requires 0 <= i < |priced| => assert rows[i] in rows; DiscountMapped(priced[i], discounts))
    else priced
  }

  /** Remapping keeps the number and order of rows and every row's columns. */
  lemma RemappedKeepsColumns(rows: seq<Row>, reference: seq<Row>, mapPrices: bool, mapDiscounts: bool)
    requires CanRemap(rows, reference, mapPrices, mapDiscounts)
    ensures |Remapped(rows, reference, mapPrices, mapDiscounts)| == |rows|
    ensures forall i :: 0 <= i < |rows| ==> Remapped(rows, reference, mapPrices, mapDiscounts)[i].Keys == rows[i].Keys
    ensures forall i, k :: 0 <= i < |rows| && k in rows[i] && !IsPriceColumn(k) && k != DiscountColumn ==>
      Remapped(rows, reference, mapPrices, mapDiscounts)[i][k] == rows[i][k]
  {
    var out := Remapped(rows, reference, mapPrices, mapDiscounts);
    forall i | 0 <= i < |rows|
      ensures out[i].Keys == rows[i].Keys
      ensures forall k :: k in rows[i] && !IsPriceColumn(k) && k != DiscountColumn ==> out[i][k] == rows[i][k]
    {
      var priced := if mapPrices then PricesMapped(rows[i], Mapping(reference, OldPriceColumn, NewPriceColumn)) else rows[i];
      assert priced.Keys == rows[i].Keys;
      if mapDiscounts {
        assert rows[i] in rows;
        assert out[i] == DiscountMapped(priced, Mapping(reference, OldDiscountColumn, NewDiscountColumn));
      } else {
        assert out[i] == priced;
      }
    }
  }

  /** Declining both prompts writes back exactly the rows that were read. */
  lemma DeclinedIsIdentity(rows: seq<Row>, reference: seq<Row>)
    ensures Remapped(rows, reference, false, false) == rows
  {
  }

  /** An empty reference file leaves the rows unchanged whatever the answers. */
  lemma EmptyReferenceIsIdentity(rows: seq<Row>, mapPrices: bool, mapDiscounts: bool)
    requires CanRemap(rows, [], mapPrices, mapDiscounts)
    ensures Remapped(rows, [], mapPrices, mapDiscounts) == rows
  {
    assert Mapping([], OldPriceColumn, NewPriceColumn) == map[];
    assert Mapping([], OldDiscountColumn, NewDiscountColumn) == map[];
    var priced := if mapPrices then seq(|rows|, i requires 0 <= i < |rows| => PricesMapped(rows[i], map[])) else rows;
    forall i | 0 <= i < |rows| ensures PricesMapped(rows[i], map[]) == rows[i] {
      EmptyMappingChangesNothing(rows[i]);
    }
    assert priced == rows;
    if mapDiscounts {
      forall i | 0 <= i < |rows| ensures DiscountMapped(rows[i], map[]) == rows[i] {
        assert rows[i] in rows;
      }
    }
  }

  /**
   * `main` after reading the input file: the optional price and discount passes,
   * then the rows and the unchanged field names that are written out.
   */
  method RemapFile(fieldnames: seq<string>, rows: array<Row>, reference: seq<Row>, mapPrices: bool, mapDiscounts: bool)
    returns (outFieldnames: seq<string>)
    requires CanRemap(rows[..], reference, mapPrices, mapDiscounts)
    modifies rows
    ensures outFieldnames == fieldnames
    ensures CanRemap(old(rows[..]), reference, mapPrices, mapDiscounts)
    ensures rows[..] == Remapped(old(rows[..]), reference, mapPrices, mapDiscounts)
  {
    ghost var input := rows[..];
    if mapPrices {
      var prices := LoadMapping(reference, OldPriceColumn, NewPriceColumn);
      MapPrices(rows, prices);
    }
    if mapDiscounts {
      forall i | 0 <= i < rows.Length ensures DiscountColumn in rows[i] {
        assert input[i] in input;
      }
      var discounts := LoadMapping(reference, OldDiscountColumn, NewDiscountColumn);
      MapDiscounts(rows, discounts);
    }
    outFieldnames := fieldnames;
  }
}
