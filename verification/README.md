# farm-family-view: a verified model of the dashboard's data logic

The farm-family-view dashboard manages four business units: honey, legal weed, fish and exotic mushrooms. Under its React pages sits a small amount of plain list logic, and this project models that logic in Dafny and proves properties of it:

- **The in-memory access layer** (`mockApi`). It keeps one sequence per stored entity: transactions, strains, customers and compliance documents.
  - A listing can be filtered by business unit.
  - An add appends a record that carries the caller's fields plus defaults.
  - A delete takes out the first record with a given id and does nothing when the id is absent.
  - The seed rows of `mockData` form the initial store.
- **The form validators.** These are the transaction and strain schemas and the supplier and equipment schemas, together with the supplier and equipment forms' initial values.
- **The derived views of three pages:**
  - the calendar's upcoming events, cost totals and add/edit/delete list transforms;
  - the customers page's status counts, active revenue and badge variants;
  - the sidebar's `isActive` rule and the colour-key extraction of its business items.

Layout, one module per source file:

| module | file | models |
|---|---|---|
| `Wrappers` | wrappers.dfy | `Option` and `Result` |
| `Seqs` | seqs.dfy | JavaScript's `filter`, `reduce`, `slice(0, n)`, `findIndex` + `splice` and `map` on arrays, as functions on `seq`, with their algebra |
| `Strings` | strings.dfy | `startsWith`, `split` on one character, and `join` |
| `Domain` | domain.dfy | `src/data/mockData.ts`: units, records, seed rows |
| `Schemas` | schemas.dfy | `src/components/forms/schemas.ts` |
| `SupplierForm` | supplier_form.dfy | `src/components/forms/SupplierForm.tsx` |
| `EquipmentForm` | equipment_form.dfy | `src/components/forms/EquipmentForm.tsx` |
| `Api` | api.dfy | `src/services/mockApi.ts` as pure transformers of one collection |
| `MockApi` | store.dfy | the same operations on a `Store` object holding all four collections |
| `Calendar` | calendar.dfy | `src/pages/CalendarPage.tsx` |
| `CustomersPage` | customers_page.dfy | `src/pages/CustomersPage.tsx` |
| `Sidebar` | sidebar.dfy | `src/components/layout/AppSidebar.tsx` |

Conventions:

- Money and percentages are `real`.
- A calendar date is a day number counted from 1970-01-01. `Domain.CivilDay` computes it with the rollover rules of `new Date(y, monthIndex, d)` for years 100 and later. `new Date` maps years 0–99 to 1900 + y, and `CivilDay` does not; every date in the model falls in 2024–2026.
- The generated id (`Date.now().toString()`), the day of the current time (`new Date()`) and the e-mail test `isEmail` are parameters.
- A validator returns `Success` with the typed data, or `Failure` with the list of rejected fields in schema order.
- A field called `type` in the source is called `kind` here.

## Model

| member | source | states |
|---|---|---|
| `Domain.CivilDay` | src/data/mockData.ts:48 | Has no ensures of its own. `Domain.CivilDayLaws` characterises it. |
| `Domain.CivilDayLaws` | src/data/mockData.ts:48 | `new Date(y, monthIndex, d)` as a day number: 1970-01-01 is day 0, the next day is the next number, and month index 12 rolls into the next year. Day 32 of January 2025 is 1 February, and day 30 of February 2024 is 1 March. |
| `Domain.BusinessIsClosed` | src/data/mockData.ts:2 | Every unit is one of exactly four. Its key parses back to it, and no two units share a key. |
| `Domain.ParseBusiness` | src/data/mockData.ts:2 | A string names a unit iff it is one of "honey", "weed", "fish", "mushrooms", and the unit's key is that string. |
| `Domain.MockSummary` | src/data/mockData.ts:12-17 | For every unit, profit is total sales minus total expenses, and expenses lie between 0 and sales. |
| `Domain.SeedTransactions` | src/data/mockData.ts:47-54 | Six seed transactions with pairwise distinct ids and strictly positive amounts. |
| `Domain.SeedStrains` | src/data/mockData.ts:67-71 | Three seed strains with distinct ids, and every THC/CBD percentage present lies in [0, 100]. |
| `Domain.SeedCustomers` | src/data/mockData.ts:85-90 | Four seed customers with distinct ids. |
| `Domain.SeedComplianceDocs` | src/data/mockData.ts:103-108 | Four seed documents with distinct ids. |
| `Schemas.ParseTxType` | src/components/forms/schemas.ts:8 | The type parses iff it is "income" or "expense", and a parsed type names back to the input string, so each value parses to its own type. |
| `Schemas.TransactionIssues` | src/components/forms/schemas.ts:4-10 | Each field is reported iff it breaks its rule: date missing, empty description, amount not > 0, type outside the enum. The category is never reported. |
| `Schemas.ValidateTransaction` | src/components/forms/schemas.ts:4-10 | Accepts iff every rule holds. On success the typed data carries the input's fields; on failure the error is the non-empty issue list. |
| `Schemas.TransactionRoundTrip` | src/components/forms/schemas.ts:4-10 | Typed data written back as input validates to itself iff its description is non-empty and its amount positive. An accepted input written back is the input. |
| `Schemas.TransactionAmountBoundary` | src/components/forms/schemas.ts:7 | For any form with a date, a non-empty description and type "income" or "expense", amount 0 is rejected with exactly the amount field, and 0.01 is accepted. |
| `Schemas.SeedTransactionsPassSchema` | src/data/mockData.ts:48-53 | Every seed transaction, written as form input, passes the transaction schema. |
| `Schemas.ParseStrainType` | src/components/forms/schemas.ts:16 | The strain type parses iff it is "Indica", "Sativa" or "Hybrid", and a parsed type names back to the input string. |
| `Schemas.StrainIssues` | src/components/forms/schemas.ts:14-20 | Each field is reported iff it breaks its rule: empty name, type outside the enum, a THC or CBD percentage present and outside [0, 100]. Notes are never reported. |
| `Schemas.ValidateStrain` | src/components/forms/schemas.ts:14-20 | Accepts iff every rule holds, copying the fields. Otherwise the error is the non-empty issue list. |
| `Schemas.StrainRoundTrip` | src/components/forms/schemas.ts:14-20 | Typed strain data written back validates to itself iff its name is non-empty and its percentages are in range. An accepted input written back is the input. |
| `Schemas.StrainPercentageBoundary` | src/components/forms/schemas.ts:17-18 | For any form with a non-empty name, any of the three types and an absent or in-range CBD value, a THC percentage of 0, of 100, or none at all is accepted. |
| `Schemas.StrainPercentageOutOfRange` | src/components/forms/schemas.ts:17-18 | For any form with a non-empty name, any of the three types and an absent or in-range CBD value, a THC percentage of 100.1 or -0.1 is rejected, with the THC field as the only issue. |
| `SupplierForm.SupplierIssues` | src/components/forms/SupplierForm.tsx:10-17 | Each field is reported iff it breaks its rule: name, contact person and product category under 2 characters, phone under 10, an e-mail rejected by `isEmail`, rating outside [1, 5]. |
| `SupplierForm.ValidateSupplier` | src/components/forms/SupplierForm.tsx:10-17 | Accepts iff every rule holds and returns the payload unchanged. Otherwise the error is the non-empty issue list. |
| `SupplierForm.RatingBoundary` | src/components/forms/SupplierForm.tsx:16 | For an otherwise valid form, ratings 1 and 5 are accepted, and 0 and 6 are rejected with only the rating field. |
| `SupplierForm.InitialValues` | src/components/forms/SupplierForm.tsx:31-39 | Each field is the caller's preset when given. Otherwise text fields are empty and the rating is 5. |
| `SupplierForm.BlankFormRejected` | src/components/forms/SupplierForm.tsx:31-39 | The untouched form's rating 5 is valid, but its empty name is reported and the form is rejected. |
| `EquipmentForm.ParseStatus` | src/components/forms/EquipmentForm.tsx:15 | A status parses iff it is one of the four enum strings. |
| `EquipmentForm.StatusRoundTrip` | src/components/forms/EquipmentForm.tsx:15 | Every status's name parses back to that status. |
| `EquipmentForm.EquipmentIssues` | src/components/forms/EquipmentForm.tsx:12-18 | Each field is reported iff it breaks its rule: name, type or location under 2 characters, or a status outside the enum. |
| `EquipmentForm.ValidateEquipment` | src/components/forms/EquipmentForm.tsx:12-18 | Accepts iff every rule holds, carrying over every field including `assignedTo`. Otherwise the error is the non-empty issue list. |
| `EquipmentForm.AssignedToIsFree` | src/components/forms/EquipmentForm.tsx:17 | Whatever `assignedTo` holds, including nothing, acceptance does not change. |
| `EquipmentForm.InitialValues` | src/components/forms/EquipmentForm.tsx:32-40 | Presets win. Otherwise texts are empty, the status is "Operational" and the assignee is the empty string. |
| `EquipmentForm.DefaultStatusAccepted` | src/components/forms/EquipmentForm.tsx:35 | The default status is in the enum, so a form with its texts filled in is accepted with status Operational. |
| `Api.GetTransactions` | src/services/mockApi.ts:11-16 | With no argument or an empty one, it returns the whole store. With a unit key, each transaction occurs exactly as often as stored if it belongs to that unit, and not at all otherwise. |
| `Api.GetTransactionsKeepsOrder` | src/services/mockApi.ts:13-15 | Listing distributes over concatenation, so matches come out in store order. |
| `Api.GetTransactionsUnknownUnit` | src/services/mockApi.ts:13-15 | A non-empty filter that names no unit lists nothing. |
| `Api.AddTransaction` | src/services/mockApi.ts:18-31 | The store grows by exactly one record at the end, and earlier records stay unchanged. The record has the given id and copies date, description, amount, type, category and unit. |
| `Api.DeleteTransaction` | src/services/mockApi.ts:33-39 | An absent id leaves the store as it was. Otherwise exactly the first record with that id is cut out and the length drops by one. |
| `Api.DeleteTransactionKeepsOthers` | src/services/mockApi.ts:35-38 | Records with any other id survive a delete, in their original order. |
| `Api.DeleteTransactionTwice` | src/services/mockApi.ts:36 | With unique ids, a second delete of the same id changes nothing. |
| `Api.TransactionIdsStayUnique` | src/services/mockApi.ts:21-37 | An add with a fresh id keeps ids unique, and so does any delete. |
| `Api.AddTransactionRoundTrip` | src/services/mockApi.ts:11-39 | After an add with a fresh id, the unit's listing is the old listing plus the new record, and deleting that id restores the store. |
| `Api.AddStrain` | src/services/mockApi.ts:47-60 | Exactly one strain is appended, with the given id, the caller's name, type, percentages and notes, and `now` as the date added. |
| `Api.DeleteStrain` | src/services/mockApi.ts:62-68 | An absent id leaves the store as it was. Otherwise exactly the first strain with that id is cut out. |
| `Api.DeleteStrainKeepsOthers` | src/services/mockApi.ts:62-68 | In any store, duplicate ids included, a delete keeps every strain with another id, in order. |
| `Api.StrainStoreLaws` | src/services/mockApi.ts:47-68 | With unique ids, a repeated delete is a no-op, ids stay unique through any delete, and they stay unique through an add with a fresh id. |
| `Api.AddCustomer` | src/services/mockApi.ts:76-88 | One customer is appended with the given id and the caller's name, e-mail and phone. It has 0 orders, 0 spent, last order `now` and status Active. |
| `Api.CustomerIdsStayUnique` | src/services/mockApi.ts:78-86 | Adding a customer under a fresh id keeps ids unique. |
| `Api.GetComplianceDocs` | src/services/mockApi.ts:91-96 | The same filter rule as for transactions: the whole store without a filter, exactly the unit's documents with one. |
| `Api.GetComplianceDocsKeepsOrder` | src/services/mockApi.ts:93-95 | The document listing keeps store order. |
| `Api.AddComplianceDoc` | src/services/mockApi.ts:98-106 | One document is appended whose fields other than the id are exactly the caller's. |
| `Api.DocIdsStayUnique` | src/services/mockApi.ts:100-104 | Adding a document under a fresh id keeps ids unique. |
| `Api.SeedListings` | src/data/mockData.ts:47-54 | On the seed store, the weed listing is transactions 3 and 4 in that order, and the mushrooms listing is empty. |
| `MockApi.Store.constructor` | src/data/mockData.ts:47-108 | The store starts with exactly the four seed collections: transactions, strains, customers and documents. |
| `MockApi.Store.GetTransactions` | src/services/mockApi.ts:11-16 | Returns the transaction listing for the optional unit filter and changes no collection. |
| `MockApi.Store.AddTransaction` | src/services/mockApi.ts:18-31 | Pushes the new transaction onto the transactions and returns it. Strains, customers and documents are unchanged. |
| `MockApi.Store.DeleteTransaction` | src/services/mockApi.ts:33-39 | Removes the first transaction with the id, if any. Strains, customers and documents are unchanged. |
| `MockApi.Store.GetStrains` | src/services/mockApi.ts:42-45 | Returns the whole strain collection in order and changes nothing. |
| `MockApi.Store.AddStrain` | src/services/mockApi.ts:47-60 | Pushes the new strain onto the strains and returns it. Transactions, customers and documents are unchanged. |
| `MockApi.Store.DeleteStrain` | src/services/mockApi.ts:62-68 | Removes the first strain with the id, if any. Transactions, customers and documents are unchanged. |
| `MockApi.Store.GetCustomers` | src/services/mockApi.ts:71-74 | Returns the whole customer collection in order and changes nothing. |
| `MockApi.Store.AddCustomer` | src/services/mockApi.ts:76-88 | Pushes the new customer onto the customers and returns it. Transactions, strains and documents are unchanged. |
| `MockApi.Store.GetComplianceDocs` | src/services/mockApi.ts:91-96 | Returns the document listing for the optional unit filter and changes no collection. |
| `MockApi.Store.AddComplianceDoc` | src/services/mockApi.ts:98-106 | Pushes the new document onto the documents and returns it. Transactions, strains and customers are unchanged. |
| `Seqs.Filter` | src/services/mockApi.ts:14 | `filter`: an element is kept iff it is in the input and passes, with each kept value's multiplicity unchanged. Order is stated by `Seqs.FilterConcat`'s contract. |
| `Seqs.FilterConcat` | src/services/mockApi.ts:14 | Filtering a concatenation is the concatenation of the filtered parts, so `filter` keeps the input order. |
| `Seqs.Take` | src/pages/CalendarPage.tsx:93 | `slice(0, n)`: the first `min(n, length)` elements, position by position. |
| `Seqs.SumOf` | src/pages/CalendarPage.tsx:97 | `reduce((sum, x) => sum + f(x), 0)`, also used at CalendarPage.tsx:101 and CustomersPage.tsx:147. Has no ensures of its own. `Seqs.SumConcat` and `Seqs.SumFilter` characterise it. |
| `Seqs.SumConcat` | src/pages/CalendarPage.tsx:97 | The sum over a concatenation is the sum of the two parts. |
| `Seqs.SumFilter` | src/pages/CalendarPage.tsx:95-97 | Summing over the elements that pass a filter equals summing, over all elements, a function that is zero where the filter fails. |
| `Seqs.ReplaceWhere` | src/pages/CalendarPage.tsx:140-142 | The `map` of an edit: same length, each element that passes becomes the replacement, and the others stay. |
| `Seqs.FindIndex` | src/services/mockApi.ts:35 | The index is -1 iff no element matches; otherwise it is the first match. |
| `Seqs.RemoveFirst` | src/services/mockApi.ts:35-38 | With no match the sequence is unchanged. Otherwise the first match is cut out and the rest is kept in order. |
| `Seqs.RemoveFirstKeepsOthers` | src/services/mockApi.ts:35-38 | The elements that do not match are exactly those of the input, in order, so later duplicates stay. |
| `Seqs.RemoveFirstTwice` | src/services/mockApi.ts:35-38 | With at most one match, removing twice is removing once. |
| `Calendar.InitialEvents` | src/pages/CalendarPage.tsx:31-68 | Four initial events with distinct ids. |
| `Calendar.SortByDate` | src/pages/CalendarPage.tsx:92 | The result is ordered by date and is a permutation of the input. |
| `Calendar.UpcomingEvents` | src/pages/CalendarPage.tsx:87-93 | At most five events, all dated today or later, ordered by date, and all drawn from the list. |
| `Calendar.UpcomingAreEarliest` | src/pages/CalendarPage.tsx:90-93 | If a qualifying event is left out, the panel is full and every shown event is no later than it. |
| `Calendar.UpcomingShowsAllWhenFew` | src/pages/CalendarPage.tsx:90-93 | With at most five qualifying events, all of them are shown. |
| `Calendar.TotalCost` | src/pages/CalendarPage.tsx:95-101 | Has no ensures of its own. `Calendar.TotalCostIsSumOfShares` and `Calendar.TotalCostAppend` characterise it. |
| `Calendar.TotalMarketCosts` | src/pages/CalendarPage.tsx:95-97 | `TotalCost` for market events. `Calendar.InitialTotals` gives its value on the initial events. |
| `Calendar.TotalExpenditures` | src/pages/CalendarPage.tsx:99-101 | `TotalCost` for expenditure events. `Calendar.InitialTotals` gives its value on the initial events. |
| `Calendar.TotalCostIsSumOfShares` | src/pages/CalendarPage.tsx:95-101 | A type's total is the sum over all events of their cost when the type matches and a cost is set. Other events contribute 0. |
| `Calendar.TotalCostAppend` | src/pages/CalendarPage.tsx:95-101 | Appending an event raises a total by exactly that event's share. |
| `Calendar.InitialTotals` | src/pages/CalendarPage.tsx:95-101 | On the initial events, market costs total 105 and expenditures 350. |
| `Calendar.DeleteEvent` | src/pages/CalendarPage.tsx:113-114 | Every event with the id is removed, and every other event is kept as often as it occurred. |
| `Calendar.DeleteEventLaws` | src/pages/CalendarPage.tsx:114 | Deleting keeps order, is idempotent, leaves a list without the id unchanged, and keeps ids unique. |
| `Calendar.MakeEvent` | src/pages/CalendarPage.tsx:128-137 | The event copies the form's fields under the given id, and an empty title becomes "Untitled Event". |
| `Calendar.SubmitEvent` | src/pages/CalendarPage.tsx:121-153 | An add appends exactly one event at the end. An edit keeps length and ids, replaces in place every event carrying the edited id, and leaves all others untouched. |
| `Calendar.SubmitEventLaws` | src/pages/CalendarPage.tsx:139-148 | For any list, duplicate ids included, repeating an edit changes nothing more. From unique ids, an edit, or an add under a fresh id, keeps ids unique. |
| `CustomersPage.PageCustomers` | src/pages/CustomersPage.tsx:20-26 | The page's five fixture customers. |
| `CustomersPage.ActiveCount` | src/pages/CustomersPage.tsx:128 | Has no ensures of its own. `CustomersPage.StatusCountsPartition` equates it with the one-by-one count of Active customers. |
| `CustomersPage.LeadCount` | src/pages/CustomersPage.tsx:137 | Has no ensures of its own. `CustomersPage.StatusCountsPartition` equates it with the one-by-one count of Leads. |
| `CustomersPage.ActiveRevenue` | src/pages/CustomersPage.tsx:147 | Has no ensures of its own. `CustomersPage.ActiveRevenueIsSumOfShares` and `CustomersPage.ActiveRevenueIgnoresOthers` characterise it. |
| `CustomersPage.FilterCountIsCount` | src/pages/CustomersPage.tsx:128 | The filtered length equals the number of customers with that status, counted one by one. |
| `CustomersPage.StatusCountsPartition` | src/pages/CustomersPage.tsx:128-137 | The active count is the number of Active customers and the lead count the number of Leads. Together with the Inactive ones they account for every customer exactly once. |
| `CustomersPage.ActiveRevenueIsSumOfShares` | src/pages/CustomersPage.tsx:147 | Active revenue is the sum of `totalSpent` over Active customers. Leads and Inactive customers contribute 0. |
| `CustomersPage.ActiveRevenueIgnoresOthers` | src/pages/CustomersPage.tsx:147 | Changing a non-active customer's spending leaves the active revenue as it was. |
| `CustomersPage.PageFigures` | src/pages/CustomersPage.tsx:21-25 | On the fixture list, 3 are active, 1 is a lead, and active revenue is 2600.95. |
| `CustomersPage.StatusBadgeVariant` | src/pages/CustomersPage.tsx:28-35 | Has no ensures of its own. `CustomersPage.BadgeVariantDistinguishes` states that it is one-to-one and never destructive. |
| `CustomersPage.BadgeVariantDistinguishes` | src/pages/CustomersPage.tsx:28-35 | The badge mapping is total and injective and never yields the destructive variant. |
| `Strings.Split` | src/components/layout/AppSidebar.tsx:75 | `split` yields at least one part, and no part contains the separator. |
| `Strings.JoinSplit` | src/components/layout/AppSidebar.tsx:75 | Joining the parts of a split with the same separator gives back the string. |
| `Strings.SplitJoin` | src/components/layout/AppSidebar.tsx:75 | Splitting a join of separator-free parts gives back the parts. |
| `Strings.StartsWith` | src/components/layout/AppSidebar.tsx:39 | `startsWith`. Has no ensures of its own. `Strings.StartsWithConcat` and `Strings.StartsWithHead` characterise it. |
| `Strings.StartsWithConcat` | src/components/layout/AppSidebar.tsx:39 | Every string starts with each of its prefixes. |
| `Strings.StartsWithHead` | src/components/layout/AppSidebar.tsx:39 | A string that starts with a prefix agrees with it on every shorter head. |
| `Sidebar.IsActive` | src/components/layout/AppSidebar.tsx:39 | An active path is a prefix of the pathname. The lemma rows below characterise it further. |
| `Sidebar.ActiveAtItself` | src/components/layout/AppSidebar.tsx:39 | Every path is active when the pathname equals it. |
| `Sidebar.RootActiveOnlyAtRoot` | src/components/layout/AppSidebar.tsx:39 | "/" is active iff the pathname is exactly "/". |
| `Sidebar.ActiveAtExtensions` | src/components/layout/AppSidebar.tsx:39 | At `path + ext`, the entry for `path` is active iff `ext` is empty or `path` is not the root. |
| `Sidebar.InactiveUnlessPrefix` | src/components/layout/AppSidebar.tsx:39 | A path that is neither equal to nor a prefix of the pathname is inactive. |
| `Sidebar.SiblingPrefixIsActive` | src/components/layout/AppSidebar.tsx:39 | "/business/honey" is active at "/business/honeycomb", because the match is on characters, not route segments. |
| `Sidebar.MainMenuItems` | src/components/layout/AppSidebar.tsx:25-34 | The eight main entries, in display order. `Sidebar.MainMenuHighlightsOne` shows that each url highlights only its own entry. |
| `Sidebar.BusinessItems` | src/components/layout/AppSidebar.tsx:18-23 | One entry per unit. `Sidebar.BusinessItemsMatchUnits` relates each entry to its unit. |
| `Sidebar.ActiveItems` | src/components/layout/AppSidebar.tsx:55-56 | The highlighted entries are exactly the menu entries active at the pathname. |
| `Sidebar.MainMenuHighlightsOne` | src/components/layout/AppSidebar.tsx:25-39 | At any main-menu url, exactly that entry is highlighted. |
| `Sidebar.ColorKey` | src/components/layout/AppSidebar.tsx:75 | The extracted key, when present, contains no dash. |
| `Sidebar.ColorKeyOfUnitColor` | src/components/layout/AppSidebar.tsx:75 | For any dash-free key, index 2 of the split colour class is that key. |
| `Sidebar.ColorKeyCutsAtDash` | src/components/layout/AppSidebar.tsx:75 | For a key containing a dash, only the part before its first dash comes back. |
| `Sidebar.HighlightClass` | src/components/layout/AppSidebar.tsx:75 | Has no ensures of its own. `Sidebar.BusinessItemsMatchUnits` gives its value for each business entry. |
| `Sidebar.BusinessItemsMatchUnits` | src/components/layout/AppSidebar.tsx:18-23 | Each business entry routes to "/business/<key>", and its highlight class is "bg-business-<key>/10" for its own unit's key. |

## Left out

- Latency and asynchrony: the `delay` promises and `await`s only change timing, so every call is a synchronous function.
- Id generation and clocks: `Date.now().toString()` and `new Date()` become the parameters `id` and `now`. The source does not ensure fresh ids, so uniqueness is proved only when the id is assumed fresh.
- Time of day: `now` is a day number. `addStrain` and `addCustomer` store the full millisecond timestamp of `new Date()`, but the model keeps only its day. Two records added on the same day get the same date here, even though their source timestamps differ.
- Update operations: `src/services/mockApi.ts` has none. The calendar page's in-memory edit is modelled in `Calendar.SubmitEvent`; no store update is.
- Aliasing: `getTransactions` and `getComplianceDocs` without a filter return the live array, while `getStrains` and `getCustomers` return copies. On immutable sequences the difference cannot be observed, so no copy semantics are claimed.
- Validation-library internals: `z.coerce.number` string coercion and NaN are not modelled, and amounts and percentages arrive as numbers. The `.email()` regular expression is the parameter `isEmail`. The length checks count `seq<char>` elements, whereas JavaScript counts UTF-16 code units.
- Api.AddTransaction: takes the unit as a `Business`, so it does not model the unchecked `as any` cast, which would store an arbitrary string.
- Calendar.UpcomingEvents: does not state which of several events with equal dates are kept when more than five qualify. The model sorts stably, as `Array.prototype.sort` does.
- Floating point: money is `real`, so 1250.75 + 850.00 + 500.20 is exactly 2600.95, and `toFixed(2)` formatting is not modelled.
- Presentation: React state and hooks, dialogs, toasts, routing, badge and event-type colour classes other than the ones listed, icons, charts, `mockSalesTrendData`, `businessConfig`, and the business, equipment and task pages.
- Event-form schema: `EventForm` is not part of this model. The form data is taken as given, so its `date` is always present.
