# Stripe-to-Paddle migration scripts, modelled in Dafny

The repository holds two batch scripts for moving subscriptions from Stripe to Paddle.

- `stripe-mig-data-gather.py` pages through a Stripe account's subscriptions. It turns each one that is not `past_due` into a flat row of 34 fixed columns plus `price_id_i` / `quantity_i` pairs, one pair per line item. It then writes the rows to a CSV file whose header lists the fixed columns followed by as many item pairs as the widest row needs.
- `prices-discounts-mapping.py` reads that file back. It optionally rewrites Stripe price and discount ids to Paddle ids from a reference table, then writes the rows out again under the same field names.

The model covers the logic that decides each of these outputs:

| module | file | what it models |
|---|---|---|
| `Discounts` | discounts.dfy | `calculate_remaining_discount_cycles`. The current instant is a parameter. |
| `Extractor` | extractor.dfy | The row derivation of `fetch_stripe_subscriptions`, on subscriptions already fetched with their customer, coupon and item prices expanded. |
| `CsvHeader` | csv_header.dfy | The header construction of `export_to_csv`. |
| `Remapper` | remapper.dfy | `load_mapping`, `map_prices` and `map_discounts`, and `main` after the input file is read. The prompt answers are booleans. |
| `Strings`, `Columns`, `Options` | strings.dfy, columns.dfy, options.dfy | Python's `str`, `startswith` and `upper`, the row type (`map<string, string>`) with its item column names, and `Option`. |

How the source's form is kept:

- The pure parts are functions with lemmas about them: the discount calculation, the collection-mode and trial computations, and the dictionary literal.
- The loops are methods proved against those functions:
  - the subscription loop;
  - the item loop that writes into the row dictionary;
  - the two header loops;
  - `load_mapping`'s filling loop.
- `map_prices` and `map_discounts` rewrite the cells of an `array<Row>` in place. Each method states every row's new value. `PricesMappedCells` and `RemappedKeepsColumns` state which cells inside a row stay unchanged.

Some placeholder cells hold fixed explanatory texts, such as the purchase-order note and "Not found in Stripe ...".
- They carry no behaviour, so the row derivation takes them as a `Placeholders` parameter.
- `Extractor.ScriptPlaceholders` holds the script's own texts.

Python's `None` fields (a missing e-mail or line2, for instance) are represented as the empty string, which is what `csv.DictWriter` writes for them.

The discount calculation is modelled as written, including one behaviour worth knowing:
- For a `repeating` coupon the entitlement is `duration_in_months`.
- It is compared with cycles counted in the plan's own interval, so on a yearly or weekly plan months and cycles are mixed.

## Model

| member | source | states |
|---|---|---|
| Discounts.ElapsedDays | stripe-mig-data-gather.py:77 | `(now - start).days` is the floor of the elapsed microseconds over one day |
| Discounts.BillingDays | stripe-mig-data-gather.py:76 | a cycle lasts 7·interval_count days for 'week' and interval_count days otherwise, so at least one day |
| Discounts.CyclesUsed | stripe-mig-data-gather.py:70-77 | cycles used are calendar-month differences for 'month', year differences for 'year', and otherwise elapsed days floor-divided by the cycle length; never negative once the discount has started |
| Discounts.RemainingDiscountCycles | stripe-mig-data-gather.py:49-84 | no discount gives ('', empty); otherwise the discount id, with ∞ exactly for 'forever' coupons, and otherwise max(0, entitled − used) |
| Discounts.ForeverIgnoresDates | stripe-mig-data-gather.py:62-63 | a forever coupon gives (id, ∞) whatever the current instant |
| Discounts.RemainingWithinEntitlement | stripe-mig-data-gather.py:65-82 | after the discount started the count is a number never above the entitlement (duration_in_months for 'repeating', 1 otherwise) |
| Discounts.CyclesUsedMonotone | stripe-mig-data-gather.py:70-77 | a later instant never counts fewer used cycles |
| Discounts.RemainingNeverGrows | stripe-mig-data-gather.py:80-82 | the remaining count never increases as time passes |
| Discounts.RepeatingThreeMonths | stripe-mig-data-gather.py:65-82 | repeating 3 months on a monthly plan gives 1 left after two months and 0 after four |
| Strings.NatToString | stripe-mig-data-gather.py:147 | `str(n)` of a non-negative number is a non-empty digit string without a leading zero |
| Strings.ParseNatToString | stripe-mig-data-gather.py:147 | reading back `str(n)` gives n |
| Strings.NatToStringInjective | stripe-mig-data-gather.py:200-201 | different numbers give different texts, so `price_id_i` names are distinct |
| Strings.IntToString | stripe-mig-data-gather.py:135 | `str(n)` starts with '-' exactly for negative n |
| Strings.IntToStringRoundTrip | stripe-mig-data-gather.py:135 | `int(str(days_until_due)) == days_until_due` |
| Strings.StartsWithConcat | prices-discounts-mapping.py:15 | a prefix followed by anything starts with that prefix |
| Strings.StartsWithChars | stripe-mig-data-gather.py:230 | `startswith` holds exactly when the prefix matches character by character |
| Strings.Upper | stripe-mig-data-gather.py:171 | `currency.upper()` keeps the length, capitalises every ASCII lower-case letter and leaves other characters alone |
| Columns.PriceKey | stripe-mig-data-gather.py:200 | `f'price_id_{i}'` passes the `startswith('price_id_')` test |
| Columns.QuantityKey | stripe-mig-data-gather.py:201 | `f'quantity_{i}'` is a quantity column and never counted as a price column |
| Columns.PriceKeyInjective | stripe-mig-data-gather.py:199-201 | distinct item positions give distinct price columns |
| Columns.QuantityKeyInjective | stripe-mig-data-gather.py:199-201 | distinct item positions give distinct quantity columns |
| Columns.PriceKeys | stripe-mig-data-gather.py:199-200 | the price columns of n items are n distinct price columns |
| Columns.PriceKeysMembers | stripe-mig-data-gather.py:199-200 | a key is among the first n price columns exactly when it is `price_id_i` for some 1 ≤ i ≤ n |
| Columns.QuantityKeysMembers | stripe-mig-data-gather.py:199-201 | a key is among the first n quantity columns exactly when it is `quantity_i` for some 1 ≤ i ≤ n |
| Columns.NotItemColumn | stripe-mig-data-gather.py:230 | a name not starting with 'q' or with 'pr' is neither a price nor a quantity column |
| Columns.FixedColumnsAreNotItemColumns | stripe-mig-data-gather.py:215-223 | the header lists 34 fixed names, none of them a `price_id_` or `quantity_` column |
| Extractor.CollectionFields | stripe-mig-data-gather.py:117-136 | mode is 'automatic' exactly for 'charge_automatically', and then the five manual fields are empty; manual mode sets checkout 'TRUE' and the two placeholder texts; payment terms are `str(days_until_due)` with 'day' exactly when manual with days_until_due present |
| Extractor.TrialFields | stripe-mig-data-gather.py:139-148 | trial cells are set exactly when trial_end is present, non-zero and not before now; then the frequency is the floored whole days left plus one (so ≥ 1) and the interval is 'day'; otherwise both are '' |
| Extractor.ActiveMembers | stripe-mig-data-gather.py:94-97 | the kept subscriptions are exactly the input ones that are not past_due |
| Extractor.ActiveAppend | stripe-mig-data-gather.py:94-97 | filtering keeps input order: filtering a concatenation concatenates the filtered parts |
| Extractor.FixedCellsKeys | stripe-mig-data-gather.py:154-190 | the dictionary literal has exactly the 34 header columns |
| Extractor.FixedCollectionCells | stripe-mig-data-gather.py:174-179 | the literal's six collection-mode cells hold the fields the collection computation gives |
| Extractor.FixedTrialDiscountCells | stripe-mig-data-gather.py:182-187 | the literal's trial and discount cells hold what the trial and discount computations give |
| Extractor.FixedStampCells | stripe-mig-data-gather.py:108-110 | the literal's started_at and period cells show the formatted timestamp when it is present and non-zero, and '' otherwise |
| Extractor.ItemCellsKeys | stripe-mig-data-gather.py:199-201 | n items write exactly price_id_1..n and quantity_1..n |
| Extractor.ItemCellsValues | stripe-mig-data-gather.py:199-201 | `price_id_i` holds item i's price id ('' without a price) and `quantity_i` its quantity |
| Extractor.ItemColumnsKeys | stripe-mig-data-gather.py:197-204 | a row gets one item pair per item, or one pair without items, and only item columns |
| Extractor.FixedCellsIsFixedPart | stripe-mig-data-gather.py:154-190 | the literal has a status cell and no item column |
| Extractor.PriceColumnsOf | stripe-mig-data-gather.py:230 | the price columns of fixed cells plus n item pairs are exactly price_id_1..n |
| Extractor.AssembleKeys | stripe-mig-data-gather.py:192-204 | the pause override adds no column and the item loop adds exactly the item pairs |
| Extractor.AssemblePriceCount | stripe-mig-data-gather.py:197-204 | a row counts one price column per item slot |
| Extractor.NotItemKey | stripe-mig-data-gather.py:197-204 | the item loop never writes a fixed column |
| Extractor.AssembleStatus | stripe-mig-data-gather.py:192-194 | status is 'paused' when collection is paused, and the literal's status otherwise |
| Extractor.AssembleKeepsFixed | stripe-mig-data-gather.py:192-204 | every other fixed cell reaches the row unchanged |
| Extractor.AssembleItems | stripe-mig-data-gather.py:197-204 | the row's item cells are the items' price ids and quantities in order, or one empty pair |
| Extractor.RowKeys | stripe-mig-data-gather.py:154-204 | every row has exactly the 34 fixed columns and ItemSlots item pairs, and counts ItemSlots price columns |
| Extractor.RowStatus | stripe-mig-data-gather.py:170-194 | a row's status is 'paused' whenever pause_collection is set, and the API status otherwise |
| Extractor.RowFixedCell | stripe-mig-data-gather.py:154-194 | every literal cell except status is the row's cell |
| Extractor.RowItems | stripe-mig-data-gather.py:197-204 | with n ≥ 1 items, `price_id_i` and `quantity_i` come from item i; with none, both `_1` cells are '' |
| Extractor.RowCollectionMode | stripe-mig-data-gather.py:117-136 | a row's collection mode is 'automatic' exactly for charge_automatically, with the five manual fields empty; manual rows enable checkout; payment terms are 'day' exactly when manual with days_until_due |
| Extractor.ManualCellsFilled | stripe-mig-data-gather.py:117-136 | with non-empty placeholder texts, enable_checkout, purchase_order_number and additional_information are non-empty exactly when the subscription is not charged automatically |
| Extractor.ScriptRowManualCells | stripe-mig-data-gather.py:127-130 | with the script's own texts, those three cells are filled exactly for manual collection |
| Extractor.CyclesCell | stripe-mig-data-gather.py:63-84 | the remaining-cycles text is '' exactly without a discount, '∞' exactly for unlimited cycles, and otherwise digits that read back as the count |
| Extractor.RowDiscount | stripe-mig-data-gather.py:150-187 | discount_id is the discount's id or ''; the remaining-cycles cell is the CyclesCell of the computed cycles: empty exactly without a discount, ∞ exactly for a forever coupon |
| Extractor.RowTrial | stripe-mig-data-gather.py:139-183 | the trial cells are 'day' and a positive day count exactly when the trial ends now or later, otherwise both '' |
| Extractor.RowStamps | stripe-mig-data-gather.py:108-110 | a row's started_at, current_period_started_at and current_period_ends_at cells hold the strftime text when the API's timestamp is present and non-zero, and '' when it is None or 0 |
| Extractor.AddItemColumns | stripe-mig-data-gather.py:196-204 | the indexed loop writes the same cells as the item columns function |
| Extractor.CollectRow | stripe-mig-data-gather.py:99-204 | the loop body builds the literal, applies the pause override and writes the items, giving BuildRow |
| Extractor.FetchSubscriptions | stripe-mig-data-gather.py:87-211 | the loop appends exactly the rows of ExtractRows |
| Extractor.ExtractRowsSpec | stripe-mig-data-gather.py:94-206 | one row per subscription that is not past_due, in input order, row i built from the i-th kept subscription |
| CsvHeader.MaxItemsIsMaximum | stripe-mig-data-gather.py:226-231 | max_items is the largest price-column count of any row (0 for no rows) |
| CsvHeader.ItemHeadersShape | stripe-mig-data-gather.py:234-236 | the appended headers are price_id_i, quantity_i at positions 2i−2, 2i−1 |
| CsvHeader.HeaderShape | stripe-mig-data-gather.py:215-236 | the header is the 34 fixed names in order, then the item pairs 1..max_items, so its length is 34 + 2·max_items |
| CsvHeader.WidestRow | stripe-mig-data-gather.py:226-231 | the first loop computes MaxItems |
| CsvHeader.AppendItemHeaders | stripe-mig-data-gather.py:234-236 | the second loop appends exactly the item pairs 1..max_items |
| CsvHeader.BuildHeader | stripe-mig-data-gather.py:214-236 | the header list built by `export_to_csv` is Header(data) |
| CsvHeader.ItemHeadersContain | stripe-mig-data-gather.py:234-236 | price_id_i and quantity_i are header columns for every i ≤ max_items |
| CsvHeader.ExtractedRowsFitHeader | stripe-mig-data-gather.py:215-242 | every column of every extracted row is a header column, so DictWriter accepts every row |
| Remapper.MappingKeys | prices-discounts-mapping.py:3-9 | the table's keys are exactly the key-column values of the rows, empty ones included |
| Remapper.MappingLastWins | prices-discounts-mapping.py:7-8 | for a repeated key the last row's value wins |
| Remapper.MappingKeepsBlank | prices-discounts-mapping.py:7-8 | a reference file pairing empty old ids only with empty new ids maps '' to '' |
| Remapper.LoadMapping | prices-discounts-mapping.py:3-9 | the loop builds exactly Mapping |
| Remapper.PricesMappedCells | prices-discounts-mapping.py:11-16 | each price cell becomes mapping[old] when old is a key and stays otherwise; other cells, the key set and the price-column count are unchanged |
| Remapper.PricesMappedIdempotent | prices-discounts-mapping.py:15-16 | with old and new ids disjoint, mapping twice equals mapping once |
| Remapper.PricesNotChained | prices-discounts-mapping.py:15-16 | a cell is looked up once: with 'a' mapped to 'b' and 'b' mapped to 'c', a price cell holding 'a' becomes 'b', not 'c' |
| Remapper.EmptyMappingChangesNothing | prices-discounts-mapping.py:11-22 | an empty table leaves rows unchanged under both passes |
| Remapper.MapRowPrices | prices-discounts-mapping.py:14-16 | the inner loop over a row's keys yields PricesMapped |
| Remapper.MapPrices | prices-discounts-mapping.py:11-16 | every row of the array is replaced by its PricesMapped, in place, and the array keeps its length and order |
| Remapper.MapDiscounts | prices-discounts-mapping.py:18-22 | every row's discount_id is replaced exactly when its value is a key; nothing else changes |
| Remapper.RemappedKeepsColumns | prices-discounts-mapping.py:24-53 | remapping keeps the number and order of rows, every row's columns and every cell other than price and discount cells |
| Remapper.DeclinedIsIdentity | prices-discounts-mapping.py:36-53 | declining both prompts writes back the input rows |
| Remapper.EmptyReferenceIsIdentity | prices-discounts-mapping.py:36-47 | an empty reference file leaves the rows unchanged whatever the answers |
| Remapper.RemapFile | prices-discounts-mapping.py:24-53 | `main` writes the input field names unchanged and the rows Remapped gives for the two answers |

## Left out

- The Stripe API calls are not modelled. This covers `Subscription.list` with `auto_paging_iter` pagination, `fetch_card_token` and `fetch_tax_id`, their unbounded 429 retry loops with `time.sleep`, and the `StripeError` handler. The subscriptions are a sequence given as input, and the card token and tax id are opaque strings on the customer.
- `load_dotenv` and the API-key setup are not modelled; they are configuration.
- The clock and calendar are inputs, not computed. `datetime.utcnow()` is a parameter `now`. `utcfromtimestamp`'s calendar fields are inputs of `Instant`, and the UTC calendar conversion is not modelled. `strftime` output is an opaque string carried with each timestamp.
- The model reads the clock only once. The source calls `datetime.utcnow()` anew for each subscription's trial cells (stripe-mig-data-gather.py:143) and again inside `calculate_remaining_discount_cycles` (line 68). The model computes every row of a run, and both clock-dependent cells of a row, at one instant `now`. A run whose clock moves between those reads (across midnight or a month boundary, say) is not represented.
- Two `KeyError` crashes are not modelled; each is a precondition instead. In both cases `main` aborts before writing anything.
  - `HasColumns`, required by `Mapping`, `LoadMapping` and `CanRemap`, excludes a reference file that lacks the key or value column that `load_mapping` reads (prices-discounts-mapping.py:8).
  - `MapDiscounts`'s requires and `CanRemap` exclude an input row without a `discount_id` column when discounts are mapped (prices-discounts-mapping.py:21).
- CSV reading and writing, `open`, `input()` and `print` are not modelled. The prompt answers are booleans, and the rows read and written are values. The `.strip().lower() == 'y'` test of an answer is not modelled.
- Subscriptions whose plan has `interval_count` below 1 are not modelled: `WellFormed` excludes them all, because the billing API only returns positive counts. The source would fail on only some of them. It divides by `billing_days` only for a coupon that is not 'forever' on a plan that bills neither monthly nor yearly (stripe-mig-data-gather.py:74-77), where a count of 0 raises `ZeroDivisionError` and a negative count is floor-divided. Every other subscription with such a plan, including one without a discount, is handled without error by the source but still excluded here.
- Python `None` cells are not kept apart from empty strings. Each optional text field is the empty string when absent, which is what `DictWriter` writes.
- `quantity_i` holds the integer quantity in the source and is written through `str()`, which the model applies directly. The model does not keep the integer apart from its text.
- Strings.Upper: applies only ASCII case mapping, not Python's full Unicode `upper()`. Currency codes are ASCII.
- Row aliasing is not modelled: rows are values, so the model does not capture that the appended dictionary is the object the loop body built. Nothing mutates it after it is appended.
- The placeholder texts are a `Placeholders` parameter, since they have no behaviour. `ScriptPlaceholders` records the script's own texts.
