# Dealer management pages — a Dafny model

The dealership admin application keeps seven lists, each on its own page: orders,
prices, shipping, vehicle models, colours, enquiries and customers. Every page works
the same way:

- a zod schema checks the dialog's form and reports errors per field;
- `onSubmit` builds a record with an id of the form `PREFIX-NNN` taken from the list
  length (orders use `ORD-YYYYMMDD-NNN`), copies names from a fixed lookup list, and
  either appends it or, when editing, replaces the record under the edited id;
- `handleDelete` drops every record with an id;
- a case-insensitive search box filters the list, and some summary cards count
  records by status.

This project models those pages in Dafny 4.11 and proves properties of the model.

- `lists.dfy` (`Lists`): the array operations the pages use. These are `filter`,
  `map` with an id test, `find` turned into a name or "", and `filter(...).length` /
  `reduce` sums.
- `text.dfy` (`Text`): ASCII `toLowerCase` and `includes`, `String(n)` and
  `padStart`.
- `ids.dfy` (`Ids`): the ISO creation day, the order-id day and the `PREFIX-NNN` ids.
- `validation.dfy` (`Validation`): the zod parse result. A schema is a set of fields, a
  test of when each field fails (`min` on strings and numbers, `enum`) and a message
  per field; `.default` fills absent values.
- `store.dfy` (`Store`): the list held in React state, `EntityStore`. It has one method
  per way the pages change it: append, update by id, delete by id.
- One module per page: `Orders`, `Prices`, `Shipping`, `Models`, `Colors`,
  `Enquiries`, `Customers`. Each has its form and record datatypes, the schema
  (`Errors`, `Validate`), the record built on submit, `Submit` over the store,
  `Search`, the counts, and the page's own properties.

Design points:

- **Errors are keyed by field.** Each page has a datatype of its schema's fields, and
  an error object is a `map` from field to message. Each page's `Errors` holds exactly
  the failing fields. `Validate` is accepted exactly when every check passes.
- **Edits overwrite, except on customers.** Every page but customers saves an edit as
  `{ ...old, ...newRecord }`. The form is reset from the record being edited, so the
  new record has every key the old one has, and the edit replaces the record
  (`Lists.Overwrite`). This includes a fresh id, status and creation day. The
  customers page spreads only the form data, so id and creation day stay
  (`Customers.MergeForm`).
- **A missing key is `None`.** Where the form can send a key as `undefined` (orders,
  customers), the field is an `Option`. zod then reports "Required", or an enum's
  `required_error`, and a missing key aborts the object check, so the orders
  refinement does not run.
- **Clock and email are parameters.** The current day and the email-format test come
  in as arguments.
- **Deletion is shared.** All seven `handleDelete`s are `Store.EntityStore.DeleteById`:
  - src/app/orders/page.js:235-237
  - src/app/prices/page.js:212-214
  - src/app/shipping/page.js:207-209
  - src/app/models/page.js:175-177
  - src/app/colors/page.js:180-182
  - src/app/enquiries/page.js:201-203
  - src/app/customers/page.js:146-148
- **Ids come from the list length**, so after a delete a new record can get an id that
  is still in use. `Ids.NextIdCollidesAfterDelete` and `Models.DeleteThenAddReusesId`
  state this.

## Model

| member | source | states |
|---|---|---|
| Lists.Filter | src/app/orders/page.js:239-246 | the result keeps exactly the elements that pass the test, and is no longer than the list |
| Lists.FilterIsKept | src/app/orders/page.js:239-246 | the filtered list is the passing elements picked at strictly increasing positions, so list order is kept |
| Lists.FilterAppend | src/app/orders/page.js:239-246 | filtering a concatenation is concatenating the filtered parts |
| Lists.FilterAll | src/app/orders/page.js:239-246 | when every element passes, the filter returns the list unchanged |
| Lists.FilterIdempotent | src/app/orders/page.js:239-246 | filtering twice with the same test is filtering once |
| Lists.Count | src/app/orders/page.js:248-249 | a `filter(...).length` count is at most the list length |
| Lists.CountComplement | src/app/colors/page.js:199-200 | counts under a test and under its negation add up to the list length |
| Lists.CountDisjoint | src/app/orders/page.js:248-249 | counts under two tests no element passes together add up to the count under their disjunction |
| Lists.Sum | src/app/prices/page.js:223-230 | `reduce` of a per-record amount: not negative when no amount is |
| Lists.SumLinear | src/app/prices/page.js:223-230 | a sum of per-record differences is the difference of the sums |
| Lists.SumAtLeast | src/app/prices/page.js:227-230 | a sum of values each at least `lo` is at least `lo` times the length |
| Lists.MapSumRemove | src/app/models/page.js:186-189 | a tally's total is any one entry plus the total of the others |
| Lists.MapSumUpdate | src/app/models/page.js:186-189 | setting a tally entry changes the total by the new value less the old one |
| Lists.MapWhere | src/app/orders/page.js:208-213 | same length; each record with the id is updated, every other record is unchanged |
| Lists.MapWhereAbsent | src/app/orders/page.js:208-213 | editing an id no record has leaves the list as it was |
| Lists.MapWhereTwice | src/app/colors/page.js:184-190 | two updates under the same id compose when the first keeps the id |
| Lists.RemoveId | src/app/orders/page.js:235-237 | the records left are exactly those whose id differs |
| Lists.RemoveAbsent | src/app/orders/page.js:235-237 | deleting an id no record has leaves the list as it was |
| Lists.FindIndex | src/app/shipping/page.js:213 | `find` by id: the first position with the id, or none when no record has it |
| Lists.FindIndexFirst | src/app/shipping/page.js:213 | the first position holding the id is the one `find` stops at |
| Lists.Lookup | src/app/orders/page.js:190 | `find` by id then a name: the field of the first record with the id, or "" when none has it |
| Text.Lower | src/app/orders/page.js:241 | `toLowerCase` (ASCII): same length, each character lowered, no capital left |
| Text.Includes | src/app/orders/page.js:241 | `includes`: the empty part is always found, and a found part is no longer than the string |
| Text.LowerIdempotent | src/app/orders/page.js:241 | lowering twice is lowering once |
| Text.IncludesIff | src/app/orders/page.js:241 | `includes` holds exactly when the part occurs at some position |
| Text.IncludesEmpty | src/app/orders/page.js:241 | every string includes the empty string |
| Text.Decimal | src/app/orders/page.js:200 | `String(n)`: non-empty digits with no leading zero |
| Text.ValueOfDecimal | src/app/orders/page.js:200 | reading back the digits of `String(n)` gives n |
| Text.PadStart | src/app/orders/page.js:200 | `padStart`: the string is kept at the end, filled on the left up to the width |
| Text.ZeroPadRoundTrip | src/app/orders/page.js:200 | a zero-padded number reads back as the number, with the width when it fits |
| Text.Pad3Shape | src/app/prices/page.js:182 | `padStart(3, "0")` of a count: 3 digits below 1000, the plain number from 1000 |
| Text.ZeroPadInjective | src/app/prices/page.js:182 | different numbers give different padded strings |
| Text.RemoveDashes | src/app/orders/page.js:197-200 | `replace(/-/g, "")`: no dash left, never longer |
| Text.RemoveDashesAppend | src/app/orders/page.js:197-200 | removing dashes distributes over concatenation |
| Text.RemoveDashesJoin | src/app/orders/page.js:196-200 | removing the dashes from "YYYY-MM-DD" digit groups joins the groups |
| Ids.IsoDate | src/app/orders/page.js:205 | `toISOString().split("T")[0]`: 10 characters, digits with dashes at 4 and 7 |
| Ids.CompactDate | src/app/orders/page.js:197-200 | `toISOString().slice(0, 10).replace(/-/g, "")`: digits only |
| Ids.CompactDateShape | src/app/orders/page.js:197-200 | the id day is the padded year, month and day: 8 digits |
| Ids.CompactDateValue | src/app/orders/page.js:197-200 | the id day reads as year*10000 + month*100 + day |
| Ids.CompactDateOrder | src/app/orders/page.js:197-200 | one day is before another exactly when its id day is smaller |
| Ids.CompactDateInjective | src/app/orders/page.js:197-200 | different days give different id days |
| Ids.OrderId | src/app/orders/page.js:196-200 | "ORD-", the creation day as YYYYMMDD, "-", then at least three digits that read back as the list length plus one |
| Ids.OrderIdInjective | src/app/orders/page.js:196-200 | an order id determines both the day and the count |
| Ids.NextIdInjective | src/app/prices/page.js:182 | `PREFIX-NNN` ids from different counts differ |
| Ids.NextId | src/app/prices/page.js:182 | the prefix followed by at least three digits that read back as the list length plus one |
| Ids.NextIdFresh | src/app/models/page.js:149 | while the ids are 001..n in order, the next id is not taken |
| Ids.NextIdCollidesAfterDelete | src/app/models/page.js:149 | after deleting any but the last of 001..n, the next id is the last record's id |
| Validation.Report | src/app/orders/page.js:59-104 | the error object has exactly the fields whose check fails, each with its message; it is empty exactly when no field fails |
| Validation.Decide | src/app/orders/page.js:88-104 | `safeParse`'s outcome: success exactly when there is no error; glue for the per-page `Validate` rows, which state what acceptance means |
| Store.EntityStore.constructor | src/app/orders/page.js:163 | the list starts as the page's seed list |
| Store.EntityStore.Append | src/app/orders/page.js:214-216 | the new record is added at the end |
| Store.EntityStore.UpdateById | src/app/orders/page.js:208-213 | the list becomes the update under the id, same length |
| Store.EntityStore.DeleteById | src/app/orders/page.js:235-237 | the records with the id are dropped, every other record stays |
| Orders.Errors | src/app/orders/page.js:59-104 | the error object holds exactly the failing fields: a missing key gets "Required" (an enum its `required_error`), a present value the schema's message; the financier fails only when no key is missing, no enum is invalid and the refinement fails |
| Orders.PassesIff | src/app/orders/page.js:59-104 | no field fails exactly when every field check and the LOAN refinement pass |
| Orders.Validate | src/app/orders/page.js:59-104 | accepted exactly when every required key is present, every field check and the LOAN refinement pass, and then the value is the form with every key present; rejected with a non-empty error object |
| Orders.StoredOrderHasEveryKey | src/app/orders/page.js:224-229 | a stored order loaded back into the form has every key, and parses back to itself |
| Orders.UntouchedKeySkipsRefinement | src/app/orders/page.js:171-186 | an untouched location or date is reported "Required", and the finance refinement then does not run |
| Orders.DefaultFormErrors | src/app/orders/page.js:171-186 | the form as the dialog opens it fails on exactly the customer, the three enums, the location and both dates, with "Required" or the enum's `required_error` |
| Orders.CashNeedsNoFinance | src/app/orders/page.js:88-104 | a CASH order never fails on the financier |
| Orders.LoanWithoutFinancier | src/app/orders/page.js:88-104 | a form valid as CASH is rejected as LOAN without a financier, on `financierName` |
| Orders.StoredEnquiry | src/app/orders/page.js:202 | the "none" choice is never stored |
| Orders.FormEnquiry | src/app/orders/page.js:228 | the edit form always shows a non-empty choice |
| Orders.EnquiryRoundTrip | src/app/orders/page.js:224-229 | re-editing and saving keeps a stored enquiry link, present or absent |
| Orders.EnquiryChoiceRoundTrip | src/app/orders/page.js:224-229 | each offered choice survives saving and re-editing |
| Orders.NewOrder | src/app/orders/page.js:189-206 | day-and-count id, "none" dropped, first matching customer's name or "", status "pending", created today |
| Orders.Submit | src/app/orders/page.js:189-222 | rejected: list unchanged; accepted: append, or overwrite the edited id |
| Orders.EditOverwritesGeneratedFields | src/app/orders/page.js:208-213 | an edit replaces the edited order whole (new id, status, day) and keeps every other |
| Orders.Search | src/app/orders/page.js:239-246 | exactly the orders whose customer name, id or location contains the term, ignoring case |
| Orders.SearchEmptyTerm | src/app/orders/page.js:239-246 | the empty term shows the whole list in order |
| Orders.StatusCountsBounded | src/app/orders/page.js:248-249 | pending plus confirmed is at most the number of orders |
| Orders.IsDateWarning | src/app/orders/page.js:251-253 | a warning never compares a day with itself and never holds when the expected day is later |
| Orders.DateWarningOrder | src/app/orders/page.js:251-253 | the warning is the YYYYMMDD comparison; never for equal days, never both ways |
| Prices.Errors | src/app/prices/page.js:59-85 | the error object holds exactly the failing fields, read after defaulting, with the schema's messages |
| Prices.PassesIff | src/app/prices/page.js:59-85 | no field fails exactly when an order is chosen and every defaulted amount is at least 0 |
| Prices.Validate | src/app/prices/page.js:59-85 | accepted exactly when an order is chosen and every amount, after defaulting to 0, is at least 0 |
| Prices.AbsentAmountsAreZero | src/app/prices/page.js:64-84 | leaving the optional amounts out is entering 0 for each |
| Prices.CalculateBalance | src/app/prices/page.js:164-175 | total plus discount is selling plus the four charges; balance plus booking plus received is the total |
| Prices.CalculateBalanceExample | src/app/prices/page.js:164-175 | the first seed's amounts give total 1415000 and balance 1340000 |
| Prices.BalanceFollowsPayments | src/app/prices/page.js:164-175 | unpaid, the balance is the total; each payment lowers the balance by its amount |
| Prices.NewPrice | src/app/prices/page.js:177-189 | "PRICE-NNN" id, first matching order's names or "", total and balance consistent with the data |
| Prices.Submit | src/app/prices/page.js:177-204 | rejected: list unchanged; accepted: append, or overwrite the edited id |
| Prices.ConsistencyPreserved | src/app/prices/page.js:191-199 | appending, editing and deleting keep every record's total and balance consistent |
| Prices.SeedPricesInconsistent | src/app/prices/page.js:105-140 | both seed records carry totals and balances their amounts do not give |
| Prices.Search | src/app/prices/page.js:216-221 | exactly the prices whose customer name, order id or model name contains the term |
| Prices.SearchEmptyTerm | src/app/prices/page.js:216-221 | the empty term shows the whole list in order |
| Prices.AverageOrderValue | src/app/prices/page.js:231-235 | 0 for no prices; otherwise average times count is the sum of totals |
| Prices.PendingIsOutstanding | src/app/prices/page.js:223-230 | over consistent records, pending is billed less booked less received |
| Prices.TotalRevenue | src/app/prices/page.js:223-226 | the received amounts add up to a figure that is not negative when none is |
| Prices.TotalPending | src/app/prices/page.js:227-230 | the balances add up to a figure that is not negative when none is |
| Shipping.Errors | src/app/shipping/page.js:62-80 | the error object holds exactly the fields shorter than their minimum, with the schema's messages |
| Shipping.Validate | src/app/shipping/page.js:62-80 | accepted exactly when every checked field reaches its minimum length |
| Shipping.PincodeAndContactBounds | src/app/shipping/page.js:71-73 | six pincode characters and ten contact characters pass, one fewer fails |
| Shipping.PincodeCheckIsLengthOnly | src/app/shipping/page.js:71 | seven letters pass the pincode check |
| Shipping.NewShipment | src/app/shipping/page.js:173-182 | "SHIP-NNN" id, first matching order's model or "", status "scheduled", created today |
| Shipping.Submit | src/app/shipping/page.js:173-198 | rejected: list unchanged; accepted: append, or overwrite the edited id |
| Shipping.EditResetsStatus | src/app/shipping/page.js:184-192 | a saved edit puts the shipment back to "scheduled" |
| Shipping.ShippingFormState.constructor | src/app/shipping/page.js:156-170 | the form starts blank, unticked, with no order |
| Shipping.ShippingFormState.SelectOrder | src/app/shipping/page.js:302-311 | the order id is set and remembered, and the first matching order's customer name is copied |
| Shipping.ShippingFormState.CheckSameAsBilling | src/app/shipping/page.js:211-222 | the flag is recorded, and when ticked with a listed order selected the billing address is copied |
| Shipping.FillBilling | src/app/shipping/page.js:214-220 | the five address fields become the order's billing ones, and nothing else changes |
| Shipping.AfterSameAsBilling | src/app/shipping/page.js:211-222 | the flag is set to the checkbox; unticking changes nothing else; order id and customer name stay |
| Shipping.SameAsBillingEffect | src/app/shipping/page.js:211-222 | only the flag and the five address fields change; they come from the first matching order |
| Shipping.SameAsBillingIdempotent | src/app/shipping/page.js:211-222 | ticking twice is ticking once |
| Shipping.AddressChecksPass | src/app/shipping/page.js:62-71 | long enough order, customer, address lines and pincode leave no error on any of them |
| Shipping.SeedBillingPassesAddressChecks | src/app/shipping/page.js:83-106 | picking a seed order and ticking the box leaves no address error |
| Shipping.Search | src/app/shipping/page.js:224-230 | exactly the shipments whose customer name, order id, city or state contains the term |
| Shipping.SearchEmptyTerm | src/app/shipping/page.js:224-230 | the empty term shows the whole list in order |
| Shipping.StatusCountsBounded | src/app/shipping/page.js:232-240 | the three counts add up to the shipments with one of the statuses, at most the list length |
| Models.Errors | src/app/models/page.js:52-69 | the error object holds exactly the failing fields with the schema's messages |
| Models.PassesIff | src/app/models/page.js:52-69 | no field fails exactly when every length, enum and number check passes |
| Models.Validate | src/app/models/page.js:52-69 | accepted exactly when every length, enum and number check passes |
| Models.BlankFormRejected | src/app/models/page.js:131-144 | the default form fails on fuel type and transmission but not on mileage or seating |
| Models.NewModel | src/app/models/page.js:147-152 | the record: the "MODEL-" id for the list length, the form data, created today (the id's properties are the `Ids.NextId` rows) |
| Models.Submit | src/app/models/page.js:147-167 | rejected: list unchanged; accepted: append, or overwrite the edited id |
| Models.DeleteThenAddReusesId | src/app/models/page.js:72-121 | with one seed model deleted, the next model gets the last seed's id |
| Models.Search | src/app/models/page.js:179-184 | exactly the models whose name, variant or fuel type contains the term |
| Models.SearchEmptyTerm | src/app/models/page.js:179-184 | the empty term shows the whole list in order |
| Models.FuelTypeCounts | src/app/models/page.js:186-189 | at most one entry per model, and every entry at least 1 |
| Models.FuelTypeCountsExact | src/app/models/page.js:186-189 | the tally has a key exactly for each fuel type that occurs, valued at its number of models |
| Models.FuelTypeKeys | src/app/models/page.js:186-189 | the tally has an entry for exactly the fuel types that occur |
| Models.FuelCountAt | src/app/models/page.js:186-189 | each entry of the tally is the number of models of that fuel type |
| Models.FuelTypeCountsTotal | src/app/models/page.js:186-189 | every model is tallied once: the entries add up to the number of models |
| Colors.Errors | src/app/colors/page.js:59-70 | the error object holds exactly the failing fields with the schema's messages |
| Colors.PassesIff | src/app/colors/page.js:59-70 | no field fails exactly when the texts are filled and the defaulted cost is not negative |
| Colors.Validate | src/app/colors/page.js:59-70 | accepted exactly when the texts are filled and the cost is not negative; available and cost 0 by default |
| Colors.NewColor | src/app/colors/page.js:149-157 | "COLOR-NNN" id, first matching model's name or "", created today |
| Colors.Submit | src/app/colors/page.js:149-172 | rejected: list unchanged; accepted: append, or overwrite the edited id |
| Colors.Flip | src/app/colors/page.js:184-190 | the availability flag is negated, everything else kept |
| Colors.ToggleAvailability | src/app/colors/page.js:184-190 | the colours under the id are flipped |
| Colors.ToggleEffect | src/app/colors/page.js:184-190 | only the flag of the colours under the id changes |
| Colors.ToggleTwice | src/app/colors/page.js:184-190 | toggling twice restores the list |
| Colors.Search | src/app/colors/page.js:192-197 | exactly the colours whose name, model name or code contains the term |
| Colors.SearchEmptyTerm | src/app/colors/page.js:192-197 | the empty term shows the whole list in order |
| Colors.AvailabilityCountsPartition | src/app/colors/page.js:199-200 | available plus unavailable is the number of colours |
| Enquiries.Errors | src/app/enquiries/page.js:52-58 | the error object holds exactly the empty fields with the schema's messages |
| Enquiries.PassesIff | src/app/enquiries/page.js:52-58 | no field fails exactly when customer, model, variant and colour are filled |
| Enquiries.Validate | src/app/enquiries/page.js:52-58 | accepted exactly when customer, model, variant and colour are filled |
| Enquiries.NewEnquiry | src/app/enquiries/page.js:162-176 | "ENQ-NNN" id, names and date from the first matching customer, model and colour, status "pending" |
| Enquiries.Submit | src/app/enquiries/page.js:162-192 | rejected: list unchanged; accepted: append, or overwrite the edited id |
| Enquiries.AvailableColors | src/app/enquiries/page.js:219-221 | all colours with no model selected, else exactly that model's colours |
| Enquiries.AvailableColorsExample | src/app/enquiries/page.js:219-221 | with two colours of one model and one of another, the first model offers its two in order |
| Enquiries.Search | src/app/enquiries/page.js:212-217 | exactly the enquiries whose customer name, model name or id contains the term |
| Enquiries.SearchEmptyTerm | src/app/enquiries/page.js:212-217 | the empty term shows the whole list in order |
| Enquiries.StatusCountsBounded | src/app/enquiries/page.js:223-228 | pending plus converted is the count of either, at most the list length |
| Customers.Errors | src/app/customers/page.js:53-68 | the error object holds exactly the failing fields: a missing required key gets "Required", a present value the schema's message |
| Customers.Validate | src/app/customers/page.js:53-68 | accepted exactly when every required key is present and long enough and the email is absent, empty or well-formed |
| Customers.EmailOptional | src/app/customers/page.js:58 | a missing or empty email never fails; a non-empty one fails exactly when the email test rejects it |
| Customers.MissingKeyRequired | src/app/customers/page.js:53-68 | a missing required key is always reported, with "Required"; a present one with the schema's message |
| Customers.SeedEditReportsRequired | src/app/customers/page.js:71-92 | saving the first seed customer unedited fails with "Required" on exactly the four keys it lacks |
| Customers.NewCustomer | src/app/customers/page.js:118-123 | the record: the "CUST-" id for the list length, the form data, created today (the id's properties are the `Ids.NextId` rows) |
| Customers.Submit | src/app/customers/page.js:118-138 | rejected: list unchanged; accepted: append, or merge the form into the edited id |
| Customers.EditKeepsIdentity | src/app/customers/page.js:125-130 | an edit keeps every id and creation day, changes the edited data only |
| Customers.EditIdempotent | src/app/customers/page.js:125-130 | saving the same edit twice is saving it once |
| Customers.Search | src/app/customers/page.js:150-155 | exactly the customers whose name or email contains the term ignoring case, or whose mobile contains it |
| Customers.SearchEmptyTerm | src/app/customers/page.js:150-155 | the empty term shows the whole list in order |
| Customers.SearchFindsMobile | src/app/customers/page.js:153 | a term occurring in a mobile number finds that customer |

## Left out

- JSX, dialogs, toasts, the edit-form reset and the selects' rendering are not modelled. Only the values the handlers compute are.
- The clock is a `today: Date` argument. Days are (year, month, day) triples with year at most 9999.
- JavaScript `Date` parsing in `isDateWarning` is not modelled. The warning compares two already-parsed days.
- The colours page's upcoming count (src/app/colors/page.js:201-207) depends on the clock and on `Date` parsing, so it is not modelled.
- Floating point: amounts are integers and mileage is a `real`. `parseFloat` and `toLocaleString` formatting are not modelled. `Prices.AverageOrderValue` divides exactly.
- `toLowerCase` lowers ASCII letters only. Unicode case mapping is not modelled.
- The email-format test of `z.string().email()` is a parameter.
- The enquiry page's "convert to order" button only raises an alert, so it is not modelled.
- The orders page's enquiry lookup (src/app/orders/page.js:191-194) is computed and never used, so it is not modelled.
- zod's wording of the invalid-enum message is not modelled: it lists the options, and the model uses the constant "Invalid enum value".
- zod's "Required" errors for a missing key are modelled on the two pages where a key can be missing: the orders dialog opens with seven keys undefined (src/app/orders/page.js:171-186), and the seed customers lack four keys that an edit then sends undefined (src/app/customers/page.js:71-92, 140-144). On the other five pages the dialog's defaults and every seed record carry every required key, so their form fields are plain values.
- Numbers are never missing or non-numeric: every number input converts with `parseFloat(...) || 0` or `parseInt(...) || 0` (or 5), so zod's "Expected number" error is not modelled.
- The seed lists are transcribed only where a property needs them: the price seeds, the model ids, the shipping page's orders and the first seed customer.
- No handler sets "confirmed", "delivered" or "converted". Those statuses come only from seed data, which the counts take as given.

## Notes on the source

- The shipping and customer pincode messages (src/app/shipping/page.js:71, src/app/customers/page.js:63) say "6 digits", but the check is a length of at least 6 on any characters (`Shipping.PincodeCheckIsLengthOnly`).
- The two seed prices carry totals and balances that their own amounts do not give (`Prices.SeedPricesInconsistent`).
- Ids are taken from the list length, so adding after a delete can repeat an id (`Ids.NextIdCollidesAfterDelete`). A later edit or delete by that id then affects both records.
- Editing an order, shipment, colour, model, price or enquiry regenerates its id from the current list length. Editing an order also resets its status to "pending"; editing a shipment resets it to "scheduled"; editing an enquiry resets it to "pending".
