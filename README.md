# Quotation backend: a verified model of the quotation aggregate

This project models the core of a Laravel backend. The backend keeps customers, their quotations, and each quotation's line items. The model covers these parts:

- **Quotation endpoints.** `QuotationController` creates a quotation with its items inside one database transaction. It updates the date and replaces the items wholesale, deletes a quotation together with its items, shows a summary, and guards the e-mail endpoint.
- **Item endpoints.** `QuotationItemController` edits or deletes a single line item.
- **Customer endpoints.** `CustomerController` searches customers by substring. It shows a customer with per-quotation totals recomputed from the items, and creates, updates and deletes customers.
- **Form requests.** The four form requests (`StoreQuotationRequest`, `UpdateQuotationRequest`, `StoreCustomerRequest`, `UpdateCustomerRequest`) are modelled as predicates over a request.

How the model is built:

- **The database.** It is the class `Models.Database`. Each table is a sequence in key order, and each table has its auto-increment counter. Every ORM statement the controllers issue is one method of the class.
- **The endpoints.** Each endpoint is a method over that class. Its `ensures` clause ties the answer and the new contents to a function of the old contents (`StoreEffect`, `UpdateEffect`, `DestroyEffect`, …). The lemmas prove the endpoint's guarantees about these functions.
- **A failing write.** The parameter `failingWrite` names which write inside a transaction throws, if any. Its value is the number of the write in the order the controller issues them. A throw from a write before `DB::commit()` rolls the transaction back to the contents saved when it began. A throw after the commit is not modelled (see "## Left out").
- **Money.** Amounts are exact integers. A unit price is in ten-thousandths of the currency unit, and line and grand totals are in cents. PHP's `round($x, 2)` is rounding half away from zero (`Money.RoundToCents`).
- **Request fields.** Each field is `Missing`, `Null` or `Given(value)`. Laravel's `sometimes`, `required` and `nullable` rules tell these three cases apart.
- **Outside inputs.** "Today" is a parameter. Whether an address passes `email:rfc,dns` is the parameter `emailOk`. Whether the mailer delivers is the parameter `delivered`.

Two invariants are stated over the tables:

- `Models.Valid` holds the tables' integrity:
  - keys are strictly increasing and below their counters (the schema's auto-increment keys);
  - emails are unique (the schema's unique index on `customers.email`);
  - every item belongs to an existing quotation (the schema's item foreign key);
  - every item has quantity ≥ 1, unit price ≥ 0 and `total_price` equal to its rounded line total. The schema has no check constraint for this. The controllers establish it by validating each item and computing its line total.

  Every write endpoint preserves `Valid`.
- `Models.TotalsConsistent` says that every stored `grand_total` equals the sum of its items' `total_price`. Quotation store, update and destroy preserve it. The item-level edit and delete break it whenever they change a line total, and the model proves exactly when that happens.

## Model

| member | source | states |
|---|---|---|
| Money.RoundToCents | app/Http/Controllers/QuotationController.php:68 | the result is within half a cent of the amount, a tie going away from zero |
| Money.RoundToCentsIsNearest | app/Http/Controllers/QuotationController.php:68 | no whole number of cents is nearer to the amount than the rounded one |
| Money.RoundToCentsIsSymmetric | app/Http/Controllers/QuotationController.php:68 | rounding a negated amount gives the negated result (half away from zero, not half up) |
| Money.LineTotal | app/Http/Controllers/QuotationController.php:66-68 | the line total `round($quantity * $unitPrice, 2)` in cents; its bounds are stated by `LineTotalIsRounded` |
| Money.LineTotalIsRounded | app/Http/Controllers/QuotationController.php:66-68 | a line total with a non-negative product is non-negative and within half a cent of quantity × unit price; a zero quantity or price gives 0 |
| Money.RoundTotal | app/Http/Controllers/QuotationController.php:82 | rounding a sum of whole-cent line totals to cents changes nothing |
| Money.LineTotalExamples | app/Http/Controllers/QuotationController.php:68 | 2 × 10.00 = 20.00; 3 × 5.555 = 16.665 rounds to 16.67; −16.665 rounds to −16.67 |
| Models.Database.DeleteQuotationAt | database/migrations/2025_08_09_020937_create_quotation_items_table.php:19-21 | deleting a quotation row also deletes every item whose `quotation_id` is its key (`onDelete('cascade')`) |
| QuotationController.StoreRulesOk | app/Http/Controllers/QuotationController.php:40-48 | the inline rules of `store`: an existing customer, a date, and at least one item, each with a non-blank name of at most 255 characters, a quantity ≥ 1 and a price ≥ 0 |
| QuotationController.UpdateRulesOk | app/Http/Controllers/QuotationController.php:98-105 | the inline rules of `update`: the date and the items may each be left out, but neither may be null, and items that are sent follow the same rules as in `store` |
| QuotationController.Show | app/Http/Controllers/QuotationController.php:25-35 | `show`: none for a missing key, otherwise the quotation with its stored grand total and its quantity sum; its guarantees are stated by `ShowReportsStoredTotal` |
| QuotationController.SendEmail | app/Http/Controllers/QuotationController.php:160-175 | `sendEmail`: 404 from binding, 422 for a missing customer or a falsy email, then 200 or 500 as the mailer delivers or throws; its guarantees are stated by `SendEmailGuard` |
| QuotationController.NewItems | app/Http/Controllers/QuotationController.php:65-80 | one written row per submitted item |
| QuotationController.NewItemsAt | app/Http/Controllers/QuotationController.php:65-76 | row i is written from submitted item i under key firstId + i |
| QuotationController.InsertRow | app/Http/Controllers/QuotationController.php:66-76 | one pass of the `foreach` appends the row for that item under the next key and changes nothing else |
| QuotationController.CreateItems | app/Http/Controllers/QuotationController.php:62-80 | the loop inserts the rows in submission order and its running `$grandTotal` is their sum; a throwing insert stops it and reports failure |
| QuotationController.Store | app/Http/Controllers/QuotationController.php:38-93 | `store` answers and writes exactly as `StoreEffect`: 422 on invalid input, 500 with the tables restored on a failing write, 201 otherwise |
| QuotationController.ReplaceItems | app/Http/Controllers/QuotationController.php:118-139 | the item part of `update` succeeds exactly when none of its writes throws, and then the quotation owns exactly the new rows and its grand total is their sum |
| QuotationController.Update | app/Http/Controllers/QuotationController.php:96-150 | `update` answers and writes exactly as `UpdateEffect`: 404, 422, 500 with the tables restored, or 200 |
| QuotationController.Destroy | app/Http/Controllers/QuotationController.php:153-157 | `destroy` answers and writes exactly as `DestroyEffect` |
| QuotationProperties.NewItemsWritten | app/Http/Controllers/QuotationController.php:66-76 | every written item carries the submitted name, description, quantity and price, and `total_price == round2(quantity × unit_price)` |
| QuotationProperties.StoreRejectsInvalid | app/Http/Controllers/QuotationController.php:40-52 | a missing customer, missing or empty items, a quantity < 1 or a unit price < 0 gives 422 and writes nothing |
| QuotationProperties.StoreIsAtomic | app/Http/Controllers/QuotationController.php:54-92 | 201 exactly when the rules pass and no write throws; 500 exactly when the rules pass and one throws; every non-201 leaves the tables as they were; only writes before the commit may throw |
| QuotationProperties.StoreCreatesQuotation | app/Http/Controllers/QuotationController.php:56-83 | after a 201 the new quotation has the next key, the customer and the date sent, exactly one item per submitted item in submission order, and grand total == the sum of their totals |
| QuotationProperties.StoreKeepsOtherItems | app/Http/Controllers/QuotationController.php:56-83 | every other quotation keeps exactly its items |
| QuotationProperties.StorePreservesValid | app/Http/Controllers/QuotationController.php:54-92 | `store` keeps the tables' integrity |
| QuotationProperties.StorePreservesTotals | app/Http/Controllers/QuotationController.php:78-83 | `store` keeps every stored grand total equal to the sum of its items |
| QuotationProperties.StoreRequestAddsDateBound | app/Http/Requests/StoreQuotationRequest.php:16-24 | the form request accepts exactly what the inline rules accept with a date on or before today |
| QuotationProperties.RedatedKeeps | app/Http/Controllers/QuotationController.php:113-116 | the date save changes that quotation's date, when sent, and nothing else |
| QuotationProperties.ReplacedItems | app/Http/Controllers/QuotationController.php:118-139 | delete-all then insert-all: the quotation owns exactly the new rows, its grand total is their sum, other quotations and their items are untouched |
| QuotationProperties.UpdateIsAtomic | app/Http/Controllers/QuotationController.php:107-148 | 404 exactly for a missing key; 500 exactly when a write throws after the rules pass; every non-200 leaves date, items and grand total as they were; only writes before the commit may throw |
| QuotationProperties.UpdateReplacesItems | app/Http/Controllers/QuotationController.php:118-136 | after an update with items the quotation's items are exactly the submitted ones in order, each a new row (key ≥ the old counter, so no earlier item remains), and other quotations keep their items |
| QuotationProperties.UpdateRecomputesTotal | app/Http/Controllers/QuotationController.php:138-139 | after an update with items the grand total is the sum of the new items |
| QuotationProperties.UpdateWithoutItemsKeepsItems | app/Http/Controllers/QuotationController.php:118 | an update without items leaves every item and every grand total unchanged |
| QuotationProperties.UpdateWithoutDateKeepsDate | app/Http/Controllers/QuotationController.php:113 | an update without a date leaves every date unchanged |
| QuotationProperties.UpdateSetsDate | app/Http/Controllers/QuotationController.php:113-116 | an update with a date gives the quotation that date |
| QuotationProperties.UpdateKeepsCustomer | app/Http/Controllers/QuotationController.php:98-140 | no update changes a quotation's key or customer, the customers, or any other quotation |
| QuotationProperties.UpdatePreservesValid | app/Http/Controllers/QuotationController.php:111-149 | `update` keeps the tables' integrity |
| QuotationProperties.UpdatePreservesTotals | app/Http/Controllers/QuotationController.php:118-140 | `update` keeps every stored grand total equal to the sum of its items |
| QuotationProperties.UpdateRequestAddsDateBound | app/Http/Requests/UpdateQuotationRequest.php:16-23 | the form request accepts exactly what the inline rules accept with a sent date on or before today |
| QuotationProperties.DestroyMissing | app/Http/Controllers/QuotationController.php:153-157 | 404 exactly for a missing key, changing nothing; otherwise 200 |
| QuotationProperties.DestroyCascades | app/Http/Controllers/QuotationController.php:153-157 | the quotation's key is gone, it owns no items, every other quotation and its items remain, customers untouched |
| QuotationProperties.DestroyPreservesValid | app/Http/Controllers/QuotationController.php:153-157 | `destroy` keeps the tables' integrity, the item foreign key included |
| QuotationProperties.DestroyPreservesTotals | app/Http/Controllers/QuotationController.php:153-157 | every remaining grand total still equals the sum of its items |
| QuotationProperties.ShowReportsStoredTotal | app/Http/Controllers/QuotationController.php:25-35 | `show` reports the stored grand total and `total_items` as the sum of quantities (at least the number of items); with consistent totals the grand total is the items' sum |
| QuotationProperties.SendEmailGuard | app/Http/Controllers/QuotationController.php:160-175 | 404 for a missing quotation; 422 exactly when its customer is gone or has an empty or "0" email; otherwise 200 exactly when the mailer delivers |
| QuotationItemController.PatchRulesOk | app/Http/Controllers/QuotationItemController.php:33-38 | the item edit's inline rules: every field may be left out, none may be null, a sent name is blank or has at most 255 characters (the validator skips `max` on a blank string), a sent quantity is ≥ 1 and a sent price ≥ 0 |
| QuotationItemController.Patched | app/Http/Controllers/QuotationItemController.php:40-48 | an edit keeps key and quotation, replaces only the sent fields, and recomputes `total_price` from the new-or-old quantity and price exactly when one of them was sent |
| QuotationItemController.Update | app/Http/Controllers/QuotationItemController.php:30-51 | the item `update` answers and writes exactly as its `UpdateEffect` |
| QuotationItemController.Destroy | app/Http/Controllers/QuotationItemController.php:56-61 | the item `destroy` answers and writes exactly as its `DestroyEffect` |
| QuotationItemProperties.PatchedKeepsWellFormed | app/Http/Controllers/QuotationItemController.php:40-45 | a valid edit of a well-formed item keeps `total_price == round2(quantity × unit_price)` |
| QuotationItemProperties.PatchRulesAgainstLineRules | app/Http/Controllers/QuotationItemController.php:33-38 | a line the create rules accept passes the edit rules exactly when its description is not null; an edit sending name, quantity and price passes the create rules exactly when the name is not blank |
| QuotationItemProperties.ItemUpdateRejects | app/Http/Controllers/QuotationItemController.php:33-38 | 404 for a missing item, 422 for a broken rule (a quantity < 1 or a unit price < 0 among them), and nothing changes in either case |
| QuotationItemProperties.ItemUpdateTouchesOneRow | app/Http/Controllers/QuotationItemController.php:48 | a committed edit rewrites that one item and leaves every other item, every quotation (grand totals included) and every customer |
| QuotationItemProperties.ItemUpdatePreservesValid | app/Http/Controllers/QuotationItemController.php:30-51 | the item edit keeps the tables' integrity |
| QuotationItemProperties.ItemUpdateLeavesGrandTotal | app/Http/Controllers/QuotationItemController.php:40-48 | the owner's item sum moves by the change in line total while its stored grand total stays; consistent totals stay consistent exactly when the line total did not change |
| QuotationItemProperties.ItemEditDriftExample | app/Http/Controllers/QuotationItemController.php:40-48 | changing 2 desks at 10.00 to 3 leaves a stored grand total of 20.00 beside a line total of 30.00 |
| QuotationItemProperties.ItemDestroyRemovesOne | app/Http/Controllers/QuotationItemController.php:56-59 | 404 for a missing item; otherwise exactly that item is removed and nothing else changes |
| QuotationItemProperties.ItemDestroyPreservesValid | app/Http/Controllers/QuotationItemController.php:56-59 | the item delete keeps the tables' integrity |
| QuotationItemProperties.ItemDestroyLeavesGrandTotal | app/Http/Controllers/QuotationItemController.php:56-59 | the owner's item sum drops by the removed line total while its stored grand total stays; consistent totals stay consistent exactly when that line total was 0 |
| CustomerController.Contains | app/Http/Controllers/CustomerController.php:36-38 | `like '%term%'` holds exactly when the term occurs in the column at some position |
| CustomerController.Search | app/Http/Controllers/CustomerController.php:30-43 | the result holds only customers the term matches in name, email or contact, and every such customer |
| CustomerController.Lines | app/Http/Controllers/CustomerController.php:51-58 | one line per quotation, with its own items, their count and their recomputed sum |
| CustomerController.Show | app/Http/Controllers/CustomerController.php:49-64 | `show`: none for a missing key, otherwise the customer and one recomputed line per quotation; its guarantees are stated by `CustomerShowRecomputes` |
| CustomerController.Store | app/Http/Controllers/CustomerController.php:70-75 | the customer `store` answers and writes exactly as its `StoreEffect` |
| CustomerController.Update | app/Http/Controllers/CustomerController.php:81-86 | the customer `update` answers and writes exactly as its `UpdateEffect` |
| CustomerController.Destroy | app/Http/Controllers/CustomerController.php:92-97 | the customer `destroy` answers and writes exactly as its `DestroyEffect` |
| CustomerProperties.SearchWithoutTermReturnsAll | app/Http/Controllers/CustomerController.php:32-38 | a missing or empty term returns every customer, in order |
| CustomerProperties.SearchIsSubstringMatch | app/Http/Controllers/CustomerController.php:35-39 | a customer is returned exactly when the term occurs as a substring of its name, email or contact |
| CustomerProperties.CustomerShowRecomputes | app/Http/Controllers/CustomerController.php:49-64 | 404 exactly for a missing key; each listed quotation is the customer's, with its items, `total_items` their count, and a grand total summed from them (0 without items) |
| CustomerProperties.CountAtMostQuantity | app/Http/Controllers/CustomerController.php:53 | with valid tables a quotation's item count is at most its quantity sum, equal exactly when every quantity is 1 |
| CustomerProperties.CustomerShowAgreesWhenConsistent | app/Http/Controllers/CustomerController.php:55-57 | with consistent totals the recomputed grand totals equal the stored ones |
| CustomerProperties.CustomerShowCountsItems | app/Http/Controllers/CustomerController.php:53 | the item count is at most the quantity sum the quotation view reports, equal exactly when every quantity is 1 |
| CustomerProperties.CustomerStoreOutcome | app/Http/Controllers/CustomerController.php:70-75 | 422 and no write exactly when the form request rejects; otherwise one customer appended under the next key with the sent fields |
| CustomerProperties.CustomerStorePreservesValid | app/Http/Requests/StoreCustomerRequest.php:20 | creating a customer keeps keys ordered and emails unique |
| CustomerProperties.CustomerUpdateChangesSentFields | app/Http/Controllers/CustomerController.php:81-86 | only the sent fields of that customer change; its key, the other customers, quotations and items stay |
| CustomerProperties.CustomerUpdateRejects | app/Http/Controllers/CustomerController.php:81-86 | 404 exactly for a missing key; a failed update changes nothing; a missing or null contact always fails |
| CustomerProperties.UpdateEmailIgnoresSelf | app/Http/Requests/UpdateCustomerRequest.php:21-26 | an email passes the update's uniqueness rule exactly when no other customer has it, so keeping one's own email passes |
| CustomerProperties.CustomerUpdatePreservesValid | app/Http/Requests/UpdateCustomerRequest.php:21-26 | updating a customer keeps keys ordered and emails unique |
| CustomerProperties.CustomerDestroyRemovesOne | app/Http/Controllers/CustomerController.php:92-97 | 404 for a missing key; otherwise exactly that customer is removed and quotations and items are left as they are |
| CustomerProperties.CustomerDestroyPreservesValid | app/Http/Controllers/CustomerController.php:92-97 | deleting a customer keeps keys ordered and emails unique |
| Requests.StoreQuotationRequestOk | app/Http/Requests/StoreQuotationRequest.php:16-24 | `StoreQuotationRequest::rules()`: the inline `store` rules plus a date on or before today |
| Requests.UpdateQuotationRequestOk | app/Http/Requests/UpdateQuotationRequest.php:16-23 | `UpdateQuotationRequest::rules()`: a sent date is on or before today, and sent items number at least one and each pass the line rules |
| Requests.StoreCustomerRequestOk | app/Http/Requests/StoreCustomerRequest.php:16-22 | `StoreCustomerRequest::rules()`: a non-blank name of at most 255 characters, a date of birth before today, an address that is missing, null, blank or at most 1000 characters long (the validator skips `max` on a blank string), a free email the `emailOk` parameter accepts, and an 11-digit contact |
| Requests.UpdateCustomerRequestOk | app/Http/Requests/UpdateCustomerRequest.php:17-28 | `UpdateCustomerRequest::rules()`: name, date of birth and email may be left out but follow the create rules when sent, the email may be the customer's own, the address follows the create rule, and the contact is any 11 characters |
| RequestProperties.StoreQuotationRequestRejects | app/Http/Requests/StoreQuotationRequest.php:16-24 | missing or empty items, a bad line, a date after today or an unknown customer is rejected |
| RequestProperties.UpdateQuotationRequestAcceptsEmpty | app/Http/Requests/UpdateQuotationRequest.php:17-18 | a request sending neither date nor items is valid |
| RequestProperties.UpdateQuotationRequestRejects | app/Http/Requests/UpdateQuotationRequest.php:17-22 | an empty item list, a bad line or a date after today is rejected; a date alone passes exactly when not after today |
| RequestProperties.StoreCustomerRequestRejects | app/Http/Requests/StoreCustomerRequest.php:16-22 | a blank or long name, a birth date not before today, a non-blank address over 1000 characters, a taken email, or a contact that is not 11 digits is rejected |
| RequestProperties.BlankAddressSkipsMax | app/Http/Requests/StoreCustomerRequest.php:19 | both customer requests accept or reject a request with a blank address, of any length, exactly as they do the same request with a null address |
| RequestProperties.UpdateCustomerRequestOptionalFields | app/Http/Requests/UpdateCustomerRequest.php:18-27 | name, birth date and email may be left out but not sent as null; the contact is always required |
| RequestProperties.UpdateContactNeedNotBeDigits | app/Http/Requests/UpdateCustomerRequest.php:27 | an update request sending only the contact "0912-345678" is accepted, and every create request with that contact is rejected |

## Left out

- Email sending and rendering are not modelled: the mailer is the parameter `delivered` of `QuotationController.SendEmail`, and the mail template is not part of this model.
- The `index` listings of all three controllers, and `QuotationItemController::show`, are not modelled: they are pagination and eager loading with no logic beyond reading.
- JSON response shapes are not modelled; a response is its status (`Http.Status`) and, for `show`, a summary value.
- Float arithmetic is not modelled. PHP's `(float)` casts and `round` on doubles are replaced by exact fixed-point integers, so no binary rounding error is reproduced.
- The columns `unit_price decimal(10,2)` and `total_price decimal(12,2)` store two decimals. The model keeps the unit price as sent, in ten-thousandths, so a price with more than two decimals is stored unrounded, and a price with more than four decimals is not representable.
- Input that does not parse is not modelled: a date, integer or number that fails to parse is a 422 in the source, but a `Field` value here is already of the right type.
- The `TrimStrings` and `ConvertEmptyStringsToNull` middleware are not modelled: an empty string stays an empty string rather than becoming null.
- The `email:rfc,dns` check is the parameter `emailOk`: it needs a DNS lookup.
- Search is not modelled on `like` collation: the model matches case-sensitively, and a `%` or `_` inside the term is not a wildcard.
- The counter `$totalItemsCount` in `store` is never used, so it is not modelled.
- A rollback restores the auto-increment counters as well. Whether a real engine reuses keys after a rollback depends on the engine.
- Customer delete does not cascade in the model. The quotations migration is not part of this model, so no foreign key from quotations to customers is assumed, and quotations of a deleted customer stay.
- The missing `product_name` column in the item migration is not modelled: the model follows the controllers and the model's `$fillable` list, which write `product_name`.
- Concurrent requests and isolation levels are not modelled: each request is one step on one state.
- The item edit and delete are not given a failing write: each is a single statement, which either applies or leaves the row as it was.
- CustomerController.Store, CustomerController.Update and CustomerController.Destroy have no failing write either: each always commits once its rules pass. A database error there (a 500) is not modelled.
- QuotationController.Destroy has no failing write: the cascade delete always commits.
- QuotationController.Store and QuotationController.Update give a failure only to writes before `DB::commit()`. In the source, `$quotation->load(...)` and the response follow the commit inside the same `try` (QuotationController.php:85-87 and 142-144). A throw there reaches the `catch`, whose `DB::rollBack()` does nothing once the commit is done. The source then answers 500 with the writes kept. The model has no such path, so `StoreIsAtomic` and `UpdateIsAtomic` say nothing about it.
- Column widths are not modelled. The model behaves like an engine that does not enforce `string` widths, such as SQLite. For example, `address` is `string` (VARCHAR(255)) in the customers migration but `max:1000` in both customer requests. Under MySQL in strict mode or PostgreSQL, an address of 256 to 1000 characters passes validation, the write fails, and the answer is a 500. The model answers 201 or 200 and stores the address.
- The collation of the `unique:customers,email` rule is not modelled. `Requests.EmailFree` compares emails exactly, as SQLite's default binary collation does. Under MySQL's default case-insensitive collation, "A@x.io" beside a stored "a@x.io" is a 422. The model accepts it.
- Route model binding is modelled as a lookup by key that answers 404 when the key is missing; a binding that fails for any other reason is not modelled.
